/** Image tags: their length, when naming panics, and how much of the request a tag determines. */
module ImageNames {
  import opened Basics
  import opened Cluster
  import opened Naming

  /** The hexadecimal md5 digest: always 32 characters, none of them a dot. */
  ghost predicate HexDigest(md5: string -> string)
  {
    forall s: string :: |md5(s)| == 32 && '.' !in md5(s)
  }

  function Tail(cfg: Config, c: Content): string
  {
    var (repository, version) := Partition(c.spec.bentoTag, ':');
    TagTail(repository, version, IsSeparateModels(c), cfg.estargz, IsStoredInS3(c))
  }

  /** The tail of the tag, grown suffix by suffix. */
  method BuildTail(cfg: Config, c: Content, repository: string, version: string) returns (tail: string)
    ensures tail == TagTail(repository, version, IsSeparateModels(c), cfg.estargz, IsStoredInS3(c))
  {
    tail := repository + "." + version;
    if IsSeparateModels(c) {
      tail := tail + ".nomodels";
    }
    if cfg.estargz {
      tail := tail + ".esgz";
    }
    if IsStoredInS3(c) {
      tail := tail + ".s3";
    }
  }

  /**
   getBentoImageName as the controller builds it, replacing the tag step by step. None is the
   panic of slicing 128 characters out of a 32-character digest.
   */
  method GetBentoImageName(cfg: Config, namespace: string, c: Content, repository: string, version: string, inCluster: bool)
    returns (name: Option<string>)
    requires (repository, version) == Partition(c.spec.bentoTag, ':')
    ensures name == BentoImageName(cfg, namespace, c, inCluster)
    ensures HexDigest(cfg.md5) ==>
              (name.None? <==> c.spec.image == ""
                               && |ImagePrefix(cfg, namespace, c)| > 90
                               && |ImagePrefix(cfg, namespace, c)| + |Tail(cfg, c)| > 122)
  {
    hide TagTail, Partition, RepositoryURI, ImagePrefix, IsSeparateModels, IsStoredInS3;
    if c.spec.image != "" {
      return Some(c.spec.image);
    }
    var uri := RepositoryURI(cfg, c, inCluster);
    var tail := BuildTail(cfg, c, repository, version);
    assert tail == Tail(cfg, c);
    var tag := "yatai." + ImagePrefix(cfg, namespace, c) + tail;
    if |tag| > 128 {
      tag := "yatai." + ImagePrefix(cfg, namespace, c) + cfg.md5(tail);
      if |tag| > 128 {
        var digest := cfg.md5(ImagePrefix(cfg, namespace, c) + tail);
        if |digest| < 128 {
          return None;
        }
        tag := "yatai." + digest[..128];
      }
    }
    name := Some(uri + ":" + tag);
  }

  /** With a prefix of at most 90 characters there is always a tag, of at most 128 characters. */
  lemma TagFits(cfg: Config, namespace: string, c: Content)
    requires HexDigest(cfg.md5) && |ImagePrefix(cfg, namespace, c)| <= 90
    ensures var tag := ContentTag(cfg, namespace, c);
            && tag.Some? && |tag.value| <= 128
            && forall inCluster :: BentoImageName(cfg, namespace, c, inCluster)
                 == Some(if c.spec.image != "" then c.spec.image else RepositoryURI(cfg, c, inCluster) + ":" + tag.value)
  {
    hide TagTail, Partition, RepositoryURI;
    var prefix := ImagePrefix(cfg, namespace, c);
    assert |cfg.md5(Tail(cfg, c))| == 32;
  }

  /** Repository and version, both free of dots, and all three flags can be read off the tail. */
  lemma TailInjective(
      r1: string, v1: string, a1: bool, b1: bool, c1: bool,
      r2: string, v2: string, a2: bool, b2: bool, c2: bool)
    requires '.' !in r1 && '.' !in v1 && '.' !in r2 && '.' !in v2
    requires TagTail(r1, v1, a1, b1, c1) == TagTail(r2, v2, a2, b2, c2)
    ensures r1 == r2 && v1 == v2 && a1 == a2 && b1 == b2 && c1 == c2
  {
    hide TagTail, Partition, Suffix;
    var rest1, rest2 := v1 + Suffix(a1, b1, c1), v2 + Suffix(a2, b2, c2);
    TailParts(r1, v1, a1, b1, c1);
    TailParts(r2, v2, a2, b2, c2);
    PartitionOfJoined(r1, '.', rest1);
    PartitionOfJoined(r2, '.', rest2);
    assert rest1 == rest2;
    VersionOf(v1, a1, b1, c1);
    VersionOf(v2, a2, b2, c2);
    assert |rest1| == |v1| + |Suffix(a1, b1, c1)|;
    assert |rest2| == |v2| + |Suffix(a2, b2, c2)|;
  }

  lemma TailParts(repository: string, version: string, separateModels: bool, estargz: bool, s3: bool)
    ensures TagTail(repository, version, separateModels, estargz, s3)
         == repository + ['.'] + (version + Suffix(separateModels, estargz, s3))
  {
  }

  lemma VersionOf(version: string, separateModels: bool, estargz: bool, s3: bool)
    requires '.' !in version
    ensures Partition(version + Suffix(separateModels, estargz, s3), '.').0 == version
  {
    var suffix := Suffix(separateModels, estargz, s3);
    if suffix == "" {
      assert version + suffix == version;
      PartitionOfWhole(version, '.');
    } else {
      hide Suffix;
      assert version + suffix == version + ['.'] + suffix[1..];
      PartitionOfJoined(version, '.', suffix[1..]);
    }
  }

  /** A dot in a name is what it takes to confuse two tails. */
  lemma TailNeedsDotFreeNames()
    ensures TagTail("a.b", "c", false, false, false) == TagTail("a", "b.c", false, false, false)
    ensures TagTail("a", "b.s3", false, false, false) == TagTail("a", "b", false, false, true)
  {
    assert "a.b" + "." + "c" == "a" + "." + "b.c";
    assert "a" + "." + "b.s3" == "a" + "." + "b" + ".s3";
  }

  /**
   Two requests under the same prefix get the same tag only when repository, version and flags
   agree, whether the readable or the hashed form was used for either of them.
   */
  lemma TagsApart(cfg: Config, namespace: string, a: Content, b: Content)
    requires HexDigest(cfg.md5)
    requires ImagePrefix(cfg, namespace, a) == ImagePrefix(cfg, namespace, b) && |ImagePrefix(cfg, namespace, a)| <= 90
    requires cfg.md5(Tail(cfg, a)) == cfg.md5(Tail(cfg, b)) ==> Tail(cfg, a) == Tail(cfg, b)
    requires forall c <- [a, b] ::
               '.' !in Partition(c.spec.bentoTag, ':').0 && '.' !in Partition(c.spec.bentoTag, ':').1
    ensures ContentTag(cfg, namespace, a) == ContentTag(cfg, namespace, b) <==>
              && Partition(a.spec.bentoTag, ':') == Partition(b.spec.bentoTag, ':')
              && IsSeparateModels(a) == IsSeparateModels(b)
              && IsStoredInS3(a) == IsStoredInS3(b)
  {
    hide Partition, IsSeparateModels, IsStoredInS3;
    var prefix := ImagePrefix(cfg, namespace, a);
    if ContentTag(cfg, namespace, a) == ContentTag(cfg, namespace, b) {
      assert a in [a, b] && b in [a, b];
      TagsOfTails(cfg, prefix, Tail(cfg, a), Tail(cfg, b));
      var (r1, v1) := Partition(a.spec.bentoTag, ':');
      var (r2, v2) := Partition(b.spec.bentoTag, ':');
      TailInjective(r1, v1, IsSeparateModels(a), cfg.estargz, IsStoredInS3(a),
                    r2, v2, IsSeparateModels(b), cfg.estargz, IsStoredInS3(b));
    }
  }

  /** Equal tags come from equal tails; a tail has a dot, so it is never mistaken for a digest. */
  lemma TagsOfTails(cfg: Config, prefix: string, a: string, b: string)
    requires HexDigest(cfg.md5) && |prefix| <= 90 && '.' in a && '.' in b
    requires cfg.md5(a) == cfg.md5(b) ==> a == b
    requires ImageTag(cfg, prefix, a) == ImageTag(cfg, prefix, b)
    ensures a == b
  {
    var x := if |"yatai." + prefix + a| <= 128 then a else cfg.md5(a);
    var y := if |"yatai." + prefix + b| <= 128 then b else cfg.md5(b);
    assert ImageTag(cfg, prefix, a) == Some("yatai." + prefix + x);
    assert ImageTag(cfg, prefix, b) == Some("yatai." + prefix + y);
    SamePrefix("yatai." + prefix, x, y);
  }
}
