/**
  When two asset registry entries name the same media: they share an identity field and
  agree on every identity field both carry, or they share none and are equal outright.
 */
module AssetIdentity {
  import opened Ascii
  import opened Wrappers

  const SHA_PREFIX := "sha256:"

  datatype Kind = MediaId | ContentSha | LegacyFile

  /** A registry entry; `still` is its image test, `decoration` everything identity ignores. */
  datatype Entry =
    | Entry(mediaId: Option<string>, contentSha: Option<string>, file: Option<string>, still: bool, decoration: string)
    | Opaque(value: string)

  function Text(field: Option<string>): Option<string> {
    if field.Some? && Strip(field.value) != [] then Some(Strip(field.value)) else None
  }

  function DropPrefix(prefix: string, s: string): string {
    if prefix <= Lower(s) then s[|prefix|..] else s
  }

  function NormalDigest(s: string): string {
    Lower(DropPrefix(SHA_PREFIX, s))
  }

  function IdentityFields(e: Entry): map<Kind, string> {
    if e.Opaque? then map[]
    else
      var media, sha, file := Text(e.mediaId), Text(e.contentSha), Text(e.file);
      (if media.Some? then map[MediaId := media.value] else map[])
      + (if sha.Some? then map[ContentSha := NormalDigest(sha.value)] else map[])
      + (if file.Some? then map[LegacyFile := file.value] else map[])
  }

  predicate SameAsset(a: Entry, b: Entry) {
    var left, right := IdentityFields(a), IdentityFields(b);
    var shared := left.Keys * right.Keys;
    if shared == {} then a == b else forall k | k in shared :: left[k] == right[k]
  }

  /** What an entry says under one identity field, blanks aside; digests in lower case without their prefix. */
  function Says(e: Entry, k: Kind): Option<string> {
    if e.Opaque? then None
    else
      match k
      case MediaId => Text(e.mediaId)
      case ContentSha => if Text(e.contentSha).Some? then Some(NormalDigest(Text(e.contentSha).value)) else None
      case LegacyFile => Text(e.file)
  }

  predicate BothSay(a: Entry, b: Entry, k: Kind) {
    Says(a, k).Some? && Says(b, k).Some?
  }

  /** Field by field: two entries are the same asset if they agree wherever both speak, or, where they never do, are equal. */
  lemma SameAssetByFields(a: Entry, b: Entry)
    ensures SameAsset(a, b) <==>
              if exists k: Kind :: BothSay(a, b, k) then forall k: Kind :: BothSay(a, b, k) ==> Says(a, k) == Says(b, k) else a == b
  {
    var left, right := IdentityFields(a), IdentityFields(b);
    forall k: Kind ensures (k in left <==> Says(a, k).Some?) && (k in left ==> Says(a, k) == Some(left[k])) {
      match k case MediaId => case ContentSha => case LegacyFile =>
    }
    forall k: Kind ensures (k in right <==> Says(b, k).Some?) && (k in right ==> Says(b, k) == Some(right[k])) {
      match k case MediaId => case ContentSha => case LegacyFile =>
    }
    assert forall k: Kind :: k in left.Keys * right.Keys <==> BothSay(a, b, k);
  }

  lemma SameAssetIsSymmetric(a: Entry, b: Entry)
    ensures SameAsset(a, a) && (SameAsset(a, b) <==> SameAsset(b, a))
  {
    assert IdentityFields(a).Keys * IdentityFields(b).Keys == IdentityFields(b).Keys * IdentityFields(a).Keys;
  }

  /** Matching the first entry of a key does not make two later entries match each other. */
  lemma SameAssetIsNotTransitive()
    ensures exists a, b, c :: SameAsset(a, b) && SameAsset(a, c) && !SameAsset(b, c)
  {
    var a := Entry(Some("m"), None, None, false, "");
    var b := Entry(Some("m"), Some("1"), None, false, "");
    var c := Entry(Some("m"), Some("2"), None, false, "");
    assert Strip("m") == "m" && Strip("1") == "1" && Strip("2") == "2";
    assert Lower("1") == "1" && Lower("2") == "2";
    assert IdentityFields(a) == map[MediaId := "m"];
    assert IdentityFields(b) == map[MediaId := "m", ContentSha := "1"];
    assert IdentityFields(c) == map[MediaId := "m", ContentSha := "2"];
    assert MediaId in IdentityFields(a).Keys * IdentityFields(b).Keys;
    assert MediaId in IdentityFields(a).Keys * IdentityFields(c).Keys;
    assert ContentSha in IdentityFields(b).Keys * IdentityFields(c).Keys;
    assert SameAsset(a, b) && SameAsset(a, c) && !SameAsset(b, c);
  }

  lemma DropPrefixUndoes(prefix: string, s: string)
    requires Lower(prefix) == prefix
    ensures DropPrefix(prefix, prefix + s) == s
  {
    var long := prefix + s;
    assert forall i | 0 <= i < |prefix| :: Lower(long)[i] == LowerChar(prefix[i]) == Lower(prefix)[i];
    assert Lower(long)[..|prefix|] == prefix;
  }

  lemma PrefixIsLower()
    ensures Lower(SHA_PREFIX) == SHA_PREFIX
  {
    assert forall i | 0 <= i < |SHA_PREFIX| :: LowerChar(SHA_PREFIX[i]) == SHA_PREFIX[i];
  }

  lemma LowerTwice(s: string)
    ensures Lower(Lower(s)) == Lower(s)
  {}

  lemma BareAndPrefixedAgree(prefix: string, digest: string)
    requires Lower(prefix) == prefix && !(prefix <= Lower(digest))
    ensures Lower(DropPrefix(prefix, prefix + digest)) == Lower(DropPrefix(prefix, digest))
         == Lower(DropPrefix(prefix, Lower(digest)))
  {
    DropPrefixUndoes(prefix, digest);
    LowerTwice(digest);
  }

  /** A digest written bare or behind its prefix, in either case, is one identity. */
  lemma PrefixedAndBareDigestsAgree(digest: string)
    requires !(SHA_PREFIX <= Lower(digest))
    ensures NormalDigest(SHA_PREFIX + digest) == NormalDigest(digest) == NormalDigest(Lower(digest))
  {
    PrefixIsLower();
    BareAndPrefixedAgree(SHA_PREFIX, digest);
  }
}
