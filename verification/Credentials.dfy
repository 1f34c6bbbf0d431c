/** Registry credentials: what makeSureDockerConfigJSONSecret writes and getDockerRegistry reads back. */
module Credentials {
  import opened Basics
  import opened Base64

  datatype Registry = Registry(server: string, username: Bytes, password: Bytes)

  datatype Reading =
    | Read(registry: Registry)
    | NoConfigKey
    | NoAuth
    | BadEncoding

  const COLON: Byte := ':'

  /** strings.Contains */
  predicate Contains(s: string, part: string)
  {
    |s| >= |part| && (s[..|part|] == part || (s != "" && Contains(s[1..], part)))
  }

  /** It does when it occurs somewhere. */
  lemma {:induction false} ContainsIff(s: string, part: string)
    ensures Contains(s, part) <==> exists k: nat :: k <= |s| && part <= s[k..]
    decreases |s|
  {
    assert s[0..] == s;
    if s != "" {
      ContainsIff(s[1..], part);
      assert forall k: nat :: k < |s| ==> s[1..][k..] == s[k + 1..];
      if k: nat :| k <= |s| && part <= s[k..] {
        assert k > 0 ==> part <= s[1..][k - 1..];
      }
      if k: nat :| k < |s| && part <= s[1..][k..] {
        assert part <= s[k + 1..];
      }
    }
  }

  function AuthOf(username: Bytes, password: Bytes): string
  {
    Encode(username + [COLON] + password)
  }

  /** The auths map of the docker config; without a username there is no secret to write. */
  function DockerConfig(server: string, username: Bytes, password: Bytes): Option<map<string, string>>
  {
    if username == [] then None else Some(map[server := AuthOf(username, password)])
  }

  /** The host part of the image reference. */
  function RegistryHost(image: string): string
  {
    Partition(image, '/').0
  }

  /** What the three loops may settle on, whatever order the map is ranged over. */
  predicate MayChoose(auths: map<string, string>, host: string, server: string)
  {
    && server in auths
    && if host != "" && host in auths then server == host
       else if host != "" && (exists k <- auths.Keys :: Contains(k, host)) then Contains(server, host)
       else true
  }

  predicate Qualifies(k: string, host: string, exact: bool)
  {
    if exact then k == host else Contains(k, host)
  }

  /** Ranging over the map until an entry qualifies; with no filter the first entry does. */
  method FirstEntry(auths: map<string, string>, host: string, exact: bool) returns (server: string)
    requires host != ""
    ensures if exists k <- auths.Keys :: Qualifies(k, host, exact)
            then server in auths && Qualifies(server, host, exact) && server != ""
            else server == ""
  {
    server := "";
    var keys := auths.Keys;
    while keys != {}
      invariant keys <= auths.Keys
      invariant forall k <- auths.Keys - keys :: !Qualifies(k, host, exact)
      decreases |keys|
    {
      var k :| k in keys;
      if Qualifies(k, host, exact) {
        return k;
      }
      keys := keys - {k};
    }
  }

  /**
   The choice of an entry: the exact host, else one that contains the host, else any. An empty
   result means that there is nothing to choose, or that the entry chosen has an empty name.
   */
  method ChooseServer(auths: map<string, string>, host: string) returns (server: string)
    ensures auths != map[] ==> MayChoose(auths, host, server)
    ensures auths == map[] ==> server == ""
    ensures host != "" && host in auths ==> server == host
    ensures host != "" && host !in auths && (exists k <- auths.Keys :: Contains(k, host)) ==> server in auths && Contains(server, host)
  {
    assert forall k :: Qualifies(k, host, false) <==> Contains(k, host);
    server := "";
    if host != "" {
      server := FirstEntry(auths, host, true);
      if server == "" {
        server := FirstEntry(auths, host, false);
      }
    }
    if server == "" && auths.Keys != {} {
      var k :| k in auths.Keys;
      server := k;
    }
  }

  /** getDockerRegistry for a request that names its own secret; None stands for a missing key. */
  method ReadRegistry(config: Option<map<string, string>>, image: string) returns (r: Reading)
    ensures r.Read? ==>
              && config.Some?
              && MayChoose(config.value, RegistryHost(image), r.registry.server) && r.registry.server != ""
              && Decode(config.value[r.registry.server]).Some?
              && (r.registry.username, r.registry.password)
                 == Partition(Decode(config.value[r.registry.server]).value, COLON)
    ensures r.NoConfigKey? <==> config.None?
    ensures r.NoAuth? ==> config.Some? && (config.value == map[] || MayChoose(config.value, RegistryHost(image), ""))
    ensures r.BadEncoding? ==> config.Some? && exists server <- config.value.Keys ::
              && MayChoose(config.value, RegistryHost(image), server) && Decode(config.value[server]).None?
  {
    if config.None? {
      return NoConfigKey;
    }
    var server := ChooseServer(config.value, RegistryHost(image));
    if server == "" {
      return NoAuth;
    }
    var credentials := Decode(config.value[server]);
    if credentials.None? {
      return BadEncoding;
    }
    var (username, password) := Partition(credentials.value, COLON);
    return Read(Registry(server, username, password));
  }

  /** What is written is an entry for the server alone, that of basic authentication. */
  lemma WritesBasicAuth(server: string, username: Bytes, password: Bytes)
    requires username != []
    ensures var config := DockerConfig(server, username, password);
            && config.Some? && config.value.Keys == {server}
            && Decode(config.value[server]) == Some(username + ":" + password)
  {
    hide Decode, Encode;
    RoundTrip(username + [COLON] + password);
  }

  /**
   Reading back what was written gives the same server, username and password for every image
   reference, exactly when the username has no colon and the server has a name.
   */
  method WriteThenRead(server: string, username: Bytes, password: Bytes, image: string) returns (r: Reading)
    requires username != []
    ensures r == Read(Registry(server, username, password)) <==> ':' !in username && server != ""
  {
    hide Contains, Decode, Encode, RegistryHost, MayChoose;
    var config := DockerConfig(server, username, password);
    r := ReadRegistry(config, image);
    var auths := map[server := AuthOf(username, password)];
    assert server in auths && config == Some(auths);
    OnlyChoice(auths, RegistryHost(image), server);
    RoundTrip(username + [COLON] + password);
    CredentialsSplitIff(username, password);
  }

  lemma OnlyChoice(auths: map<string, string>, host: string, server: string)
    requires auths.Keys == {server}
    ensures forall s: string :: MayChoose(auths, host, s) <==> s == server
  {
    hide Contains;
  }

  /** The first colon separates username and password (section 2 of RFC 7617). */
  lemma CredentialsSplitIff(username: Bytes, password: Bytes)
    ensures Partition(username + [COLON] + password, COLON) == (username, password) <==> ':' !in username
  {
    if COLON !in username {
      PartitionOfJoined(username, COLON, password);
    } else {
      var s := username + [COLON] + password;
      var k :| 0 <= k < |username| && username[k] == COLON;
      var i := IndexOf(s, COLON);
      var before := s[..i];
      assert forall j :: 0 <= j < |before| ==> before[j] == s[j] && before[j] != COLON;
      assert s[k] == COLON;
    }
  }

  /**
   For an image server/rest the entry of that very server wins over every other one of a larger
   config, whatever the iteration order, and gives what basic authentication encodes.
   */
  method ReadExact(auths: map<string, string>, server: string, username: Bytes, password: Bytes, rest: string)
    returns (r: Reading)
    requires server != "" && '/' !in server && ':' !in username
    requires server in auths && Decode(auths[server]) == Some(username + ":" + password)
    ensures r == Read(Registry(server, username, password))
  {
    r := ReadRegistry(Some(auths), server + "/" + rest);
    assert server + "/" + rest == server + ['/'] + rest && username + ":" + password == username + [COLON] + password;
    PartitionOfJoined(server, '/', rest);
    CredentialsSplitIff(username, password);
  }
}
