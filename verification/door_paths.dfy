/**
  The hosted page's door decides on a request path by percent-decoding it once (section 2.1 of
  RFC 3986) into segments of unreserved characters and ':'. What it judges is what it
  dispatches: decoding accepts exactly the spellings of a segment list, and printing the
  decoded form parses back to itself.
 */
module DoorPaths {
  import opened Wrappers

  const MAX_PATH_LENGTH: nat := 4096

  // -- characters and spellings

  function HexValue(c: char): Option<nat> {
    if '0' <= c <= '9' then Some(c as nat - '0' as nat)
    else if 'a' <= c <= 'f' then Some(c as nat - 'a' as nat + 10)
    else if 'A' <= c <= 'F' then Some(c as nat - 'A' as nat + 10)
    else None
  }

  predicate Alphanumeric(c: char) {
    'a' <= c <= 'z' || 'A' <= c <= 'Z' || '0' <= c <= '9'
  }

  predicate SafeChar(c: char) {
    Alphanumeric(c) || c == '.' || c == '_' || c == '~' || c == ':' || c == '-'
  }

  /** A segment the door lets through: safe characters, and not a dot segment. */
  predicate SafeSegment(s: string) {
    s != "" && s != "." && s != ".." && forall c | c in s :: SafeChar(c)
  }

  /** One way of writing a character: itself, or '%' and two hexadecimal digits. */
  predicate Unit(u: string, c: char) {
    || (u == [c] && c != '%')
    || (|u| == 3 && u[0] == '%' && HexValue(u[1]).Some? && HexValue(u[2]).Some?
        && c as nat == 16 * HexValue(u[1]).value + HexValue(u[2]).value)
  }

  /** `raw` writes `text` out, character by character. */
  predicate Spells(raw: string, text: string)
    decreases |text|
  {
    if text == [] then raw == []
    else
      || (|raw| >= 1 && Unit(raw[..1], text[0]) && Spells(raw[1..], text[1..]))
      || (|raw| >= 3 && Unit(raw[..3], text[0]) && Spells(raw[3..], text[1..]))
  }

  function Prepend(c: char, rest: Option<string>): Option<string> {
    if rest.Some? then Some([c] + rest.value) else None
  }

  /** Percent-decoding, refused at a '%' without two hexadecimal digits. */
  function Decode(raw: string): Option<string>
    decreases |raw|
  {
    if raw == [] then Some([])
    else if raw[0] != '%' then Prepend(raw[0], Decode(raw[1..]))
    else if |raw| >= 3 && HexValue(raw[1]).Some? && HexValue(raw[2]).Some?
    then Prepend((16 * HexValue(raw[1]).value + HexValue(raw[2]).value) as char, Decode(raw[3..]))
    else None
  }

  lemma {:induction false} DecodedIsSpelled(raw: string)
    requires Decode(raw).Some?
    ensures Spells(raw, Decode(raw).value)
    decreases |raw|
  {
    if raw != [] {
      var text := Decode(raw).value;
      var n := if raw[0] != '%' then 1 else 3;
      DecodedIsSpelled(raw[n..]);
      assert text[1..] == Decode(raw[n..]).value;
      assert n == 1 ==> raw[..1] == [raw[0]];
    }
  }

  lemma {:induction false} SpelledIsDecoded(raw: string, text: string)
    requires Spells(raw, text)
    ensures Decode(raw) == Some(text) && |text| <= |raw|
    decreases |text|
  {
    if text != [] {
      if |raw| >= 1 && Unit(raw[..1], text[0]) && Spells(raw[1..], text[1..]) {
        SpelledIsDecoded(raw[1..], text[1..]);
        assert raw[0] == text[0];
      } else {
        SpelledIsDecoded(raw[3..], text[1..]);
      }
      assert [text[0]] + text[1..] == text;
    }
  }

  // -- splitting

  function IndexOf(c: char, s: string): (k: nat)
    ensures k <= |s| && c !in s[..k] && (k < |s| ==> s[k] == c)
  {
    if s == [] || s[0] == c then 0 else 1 + IndexOf(c, s[1..])
  }

  function Split(s: string): (parts: seq<string>)
    ensures parts != []
    decreases |s|
  {
    var k := IndexOf('/', s);
    if k == |s| then [s] else [s[..k]] + Split(s[k + 1..])
  }

  function Join(parts: seq<string>): string
    requires parts != []
  {
    if |parts| == 1 then parts[0] else parts[0] + "/" + Join(parts[1..])
  }

  predicate Slashless(parts: seq<string>) {
    forall i | 0 <= i < |parts| :: '/' !in parts[i]
  }

  lemma {:induction false} JoinSplit(s: string)
    ensures Join(Split(s)) == s && Slashless(Split(s))
    decreases |s|
  {
    var k := IndexOf('/', s);
    if k == |s| {
      assert s[..k] == s;
    } else {
      var rest := Split(s[k + 1..]);
      JoinSplit(s[k + 1..]);
      JoinFirst(s[..k], rest);
      assert s == s[..k] + "/" + s[k + 1..];
    }
  }

  lemma JoinFirst(first: string, rest: seq<string>)
    requires rest != []
    ensures Join([first] + rest) == first + "/" + Join(rest)
    ensures '/' !in first && Slashless(rest) ==> Slashless([first] + rest)
  {
    assert ([first] + rest)[1..] == rest;
  }

  lemma {:induction false} IndexOfFirst(c: char, front: string, back: string)
    requires c !in front
    ensures IndexOf(c, front + [c] + back) == |front| == IndexOf(c, front)
    decreases |front|
  {
    if front != [] {
      assert (front + [c] + back)[1..] == front[1..] + [c] + back;
      assert front[0] in front;
      IndexOfFirst(c, front[1..], back);
    }
  }

  lemma SplitFirst(first: string, rest: string)
    requires '/' !in first
    ensures Split(first + "/" + rest) == [first] + Split(rest)
  {
    var s := first + "/" + rest;
    IndexOfFirst('/', first, rest);
    assert s == first + ['/'] + rest;
    assert s[..|first|] == first && s[|first| + 1..] == rest;
  }

  lemma {:induction false} SplitJoin(parts: seq<string>)
    requires parts != [] && Slashless(parts)
    ensures Split(Join(parts)) == parts
    decreases |parts|
  {
    if |parts| == 1 {
      IndexOfFirst('/', parts[0], "");
      assert parts == [parts[0]];
    } else {
      SplitJoin(parts[1..]);
      SplitFirst(parts[0], Join(parts[1..]));
      assert parts == [parts[0]] + parts[1..];
    }
  }

  // -- the canonical form

  predicate HasUrlAt(path: string, i: nat) {
    i + 2 < |path| && path[i] == ':' && path[i + 1] == '/' && path[i + 2] == '/'
  }

  /** What a path must satisfy before it is parsed at all. */
  predicate Clean(path: string) {
    && path != "" && |path| <= MAX_PATH_LENGTH && path[0] == '/'
    && (forall c | c in path :: '!' <= c <= '~' && c != '#' && c != '\\')
    && (forall i | 0 <= i < |path| :: !HasUrlAt(path, i))
  }

  function DecodeAll(raws: seq<string>): Option<seq<string>> {
    if raws == [] then Some([])
    else
      var first := Decode(raws[0]);
      var rest := DecodeAll(raws[1..]);
      if first.Some? && SafeSegment(first.value) && rest.Some? then Some([first.value] + rest.value) else None
  }

  function Pathname(path: string): string {
    path[..IndexOf('?', path)]
  }

  function Query(path: string): string {
    var k := IndexOf('?', path);
    if k == |path| then "" else path[k + 1..]
  }

  datatype Canonical = Canonical(segments: seq<string>, query: string)

  function Parse(path: string): Option<Canonical> {
    if !Clean(path) then None
    else
      var segments := DecodeAll(Split(Pathname(path)[1..]));
      if segments.None? then None else Some(Canonical(segments.value, Query(path)))
  }

  /** The loop of the parser: decode segment after segment, or refuse the whole path. */
  method ParsePath(path: string) returns (r: Option<Canonical>)
    ensures r == Parse(path)
  {
    if !Clean(path) {
      return None;
    }
    var raws := Split(Pathname(path)[1..]);
    var segments: seq<string> := [];
    var i := 0;
    assert raws[0..] == raws && forall rest: seq<string> :: segments + rest == rest;
    while i < |raws|
      invariant 0 <= i <= |raws|
      invariant DecodeAll(raws) == (var rest := DecodeAll(raws[i..]);
                                    if rest.Some? then Some(segments + rest.value) else None)
    {
      assert raws[i..][1..] == raws[i + 1..];
      var decoded := Decode(raws[i]);
      if decoded.None? || !SafeSegment(decoded.value) {
        return None;
      }
      var rest := DecodeAll(raws[i + 1..]);
      if rest.Some? {
        assert segments + ([decoded.value] + rest.value) == segments + [decoded.value] + rest.value;
      }
      segments := segments + [decoded.value];
      i := i + 1;
    }
    assert segments + [] == segments;
    return Some(Canonical(segments, Query(path)));
  }

  /** Raw segments that write a list of safe segments out, with no path or query separator in them. */
  predicate Spelling(raws: seq<string>, segments: seq<string>) {
    && |raws| == |segments| > 0
    && forall i | 0 <= i < |raws| ::
         '/' !in raws[i] && '?' !in raws[i] && Spells(raws[i], segments[i]) && SafeSegment(segments[i])
  }

  /** A path written from raw segments and a query; `mark` keeps the '?' of an empty query. */
  function Written(raws: seq<string>, query: string, mark: bool): string
    requires raws != []
  {
    "/" + Join(raws) + if mark then "?" + query else ""
  }

  lemma {:induction false} DecodeAllSpelled(raws: seq<string>)
    requires DecodeAll(raws).Some?
    ensures |DecodeAll(raws).value| == |raws|
    ensures forall i | 0 <= i < |raws| :: Spells(raws[i], DecodeAll(raws).value[i]) && SafeSegment(DecodeAll(raws).value[i])
    decreases |raws|
  {
    if raws != [] {
      DecodedIsSpelled(raws[0]);
      DecodeAllSpelled(raws[1..]);
    }
  }

  lemma {:induction false} SpelledDecodesAll(raws: seq<string>, segments: seq<string>)
    requires |raws| == |segments| && forall i | 0 <= i < |raws| :: Spells(raws[i], segments[i]) && SafeSegment(segments[i])
    ensures DecodeAll(raws) == Some(segments)
    decreases |raws|
  {
    if raws != [] {
      SpelledIsDecoded(raws[0], segments[0]);
      SpelledDecodesAll(raws[1..], segments[1..]);
      assert [segments[0]] + segments[1..] == segments;
    }
  }

  lemma {:induction false} JoinHolds(parts: seq<string>, c: char)
    requires parts != [] && c != '/'
    ensures c in Join(parts) <==> exists i :: 0 <= i < |parts| && c in parts[i]
    decreases |parts|
  {
    if |parts| > 1 {
      JoinHolds(parts[1..], c);
      if c in parts[0] {
        assert c in Join(parts);
      } else if c in Join(parts[1..]) {
        var i :| 0 <= i < |parts[1..]| && c in parts[1..][i];
        assert c in parts[i + 1];
      }
      forall i | 0 <= i < |parts| && c in parts[i]
        ensures c in Join(parts)
      {
        if i > 0 {
          assert c in parts[1..][i - 1];
        }
      }
    }
  }

  /** Every accepted path is a spelling of the segments the door judges, followed by the raw query. */
  lemma AcceptedIsSpelled(path: string) returns (raws: seq<string>, mark: bool)
    requires Parse(path).Some?
    ensures Clean(path) && Spelling(raws, Parse(path).value.segments)
    ensures path == Written(raws, Parse(path).value.query, mark) && (!mark ==> Parse(path).value.query == "")
  {
    var name := Pathname(path)[1..];
    raws, mark := Split(name), IndexOf('?', path) < |path|;
    JoinSplit(name);
    Partition(path);
    DecodeAllSpelled(raws);
    JoinHolds(raws, '?');
  }

  /** A path is its name and, after the first '?', its query. */
  lemma Partition(path: string)
    requires path != "" && path[0] == '/'
    ensures var name, mark := Pathname(path), IndexOf('?', path) < |path|;
            && name != "" && '?' !in name[1..] && (!mark ==> Query(path) == "")
            && path == "/" + name[1..] + if mark then "?" + Query(path) else ""
  {
    var k := IndexOf('?', path);
    PathHalves(path, k);
  }

  lemma PathHalves(path: string, k: nat)
    requires 0 < k <= |path| && path[0] == '/' && '?' !in path[..k] && (k < |path| ==> path[k] == '?')
    ensures '?' !in path[..k][1..]
    ensures path == ['/'] + path[..k][1..] + if k < |path| then ['?'] + path[k + 1..] else []
  {
    var name := path[..k];
    assert forall i | 0 <= i < |name[1..]| :: name[1..][i] == name[i + 1];
    var tail := if k < |path| then ['?'] + path[k + 1..] else [];
    assert path[k..] == tail;
    assert ['/'] + name[1..] == name;
    assert name + tail == path;
  }

  /** Every clean spelling of safe segments is accepted as exactly those segments and that query. */
  lemma SpelledIsAccepted(raws: seq<string>, segments: seq<string>, query: string, mark: bool)
    requires Spelling(raws, segments) && (!mark ==> query == "") && Clean(Written(raws, query, mark))
    ensures Parse(Written(raws, query, mark)) == Some(Canonical(segments, query))
  {
    var path := Written(raws, query, mark);
    var front := "/" + Join(raws);
    JoinHolds(raws, '?');
    assert '?' !in front;
    IndexOfFirst('?', front, query);
    assert mark ==> path == front + ['?'] + query;
    assert !mark ==> path == front;
    assert path[..|front|] == front && front[1..] == Join(raws);
    SplitJoin(raws);
    SpelledDecodesAll(raws, segments);
  }

  // -- printing the canonical form

  /** Decoded segments, written plainly, with the raw query when there is one. */
  function Print(c: Canonical): string
    requires c.segments != []
  {
    Written(c.segments, c.query, c.query != "")
  }

  lemma {:induction false} SafeSpellsItself(s: string)
    requires forall c | c in s :: SafeChar(c)
    ensures Spells(s, s) && '/' !in s && '?' !in s
    decreases |s|
  {
    if s != [] {
      assert s[0] in s && s[..1] == [s[0]];
      SafeSpellsItself(s[1..]);
    }
  }

  lemma {:induction false} DecodedIsNoLonger(raws: seq<string>, segments: seq<string>)
    requires Spelling(raws, segments)
    ensures |Join(segments)| <= |Join(raws)|
    decreases |raws|
  {
    SpelledIsDecoded(raws[0], segments[0]);
    if |raws| > 1 {
      assert forall i | 0 <= i < |raws[1..]| :: raws[1..][i] == raws[i + 1] && segments[1..][i] == segments[i + 1];
      DecodedIsNoLonger(raws[1..], segments[1..]);
    }
  }

  predicate SafeList(segments: seq<string>) {
    segments != [] && forall i | 0 <= i < |segments| :: SafeSegment(segments[i])
  }

  /** Joined safe segments neither start nor end with a slash and never hold two in a row. */
  lemma {:induction false} JoinedIsPlain(segments: seq<string>)
    requires SafeList(segments)
    ensures var s := Join(segments);
            && s != "" && s[0] != '/' && s[|s| - 1] != '/'
            && (forall c | c in s :: SafeChar(c) || c == '/')
            && (forall i | 0 <= i < |s| - 1 :: s[i] == '/' ==> s[i + 1] != '/')
    decreases |segments|
  {
    var first := segments[0];
    assert first[0] in first && first[|first| - 1] in first;
    if |segments| > 1 {
      JoinedIsPlain(segments[1..]);
      var rest := Join(segments[1..]);
      var s := Join(segments);
      assert s == first + "/" + rest;
      assert forall i | 0 <= i < |first| :: s[i] == first[i] && first[i] in first;
      assert forall i | |first| < i < |s| :: s[i] == rest[i - |first| - 1];
      assert forall c | c in s :: c in first || c == '/' || c in rest;
    } else {
      assert forall i | 0 <= i < |first| :: first[i] in first;
    }
  }

  lemma PrintedHasNoUrl(path: string, front: string, tail: string, i: nat)
    requires front != "" && front[|front| - 1] != '/'
    requires forall j | 0 <= j < |front| - 1 :: front[j] == '/' ==> front[j + 1] != '/'
    requires tail != "" ==> tail[0] == '?' && |tail| <= |path| && path[|path| - |tail|..] == tail
    requires forall j | 0 <= j < |path| :: !HasUrlAt(path, j)
    ensures !HasUrlAt(front + tail, i)
  {
    var s := front + tail;
    if i + 2 < |s| {
      if i >= |front| {
        var j := |path| - |tail| + (i - |front|);
        assert forall k | 0 <= k < |tail| :: path[|path| - |tail|..][k] == tail[k] == s[|front| + k];
        assert s[i] == path[j] && s[i + 1] == path[j + 1] && s[i + 2] == path[j + 2];
        assert !HasUrlAt(path, j);
      } else if i + 2 < |front| {
        assert s[i + 1] == front[i + 1] && s[i + 2] == front[i + 2];
      } else {
        assert s[|front|] == tail[0];
      }
    }
  }

  /** The tail of an accepted path is printed again as it stood. */
  lemma PrintedTail(path: string) returns (tail: string)
    requires Parse(path).Some?
    ensures var c := Parse(path).value;
            && SafeList(c.segments)
            && Print(c) == "/" + Join(c.segments) + tail && |Print(c)| <= |path|
            && (tail != "" ==> tail[0] == '?' && |tail| <= |path| && path[|path| - |tail|..] == tail)
  {
    var c := Parse(path).value;
    var raws, mark := AcceptedIsSpelled(path);
    DecodedIsNoLonger(raws, c.segments);
    tail := if c.query != "" then "?" + c.query else "";
    if tail != "" {
      assert path == "/" + Join(raws) + tail;
    }
  }

  lemma PrintedIsClean(path: string)
    requires Parse(path).Some?
    ensures Parse(path).value.segments != [] && Clean(Print(Parse(path).value))
  {
    var c := Parse(path).value;
    var tail := PrintedTail(path);
    JoinedIsPlain(c.segments);
    var front := "/" + Join(c.segments);
    PrintedCharacters(path, front, tail);
    forall i | 0 <= i < |Print(c)|
      ensures !HasUrlAt(Print(c), i)
    {
      PrintedHasNoUrl(path, front, tail, i);
    }
  }

  lemma PrintedCharacters(path: string, front: string, tail: string)
    requires Clean(path) && forall c | c in front :: SafeChar(c) || c == '/'
    requires tail != "" ==> |tail| <= |path| && path[|path| - |tail|..] == tail
    ensures forall c | c in front + tail :: '!' <= c <= '~' && c != '#' && c != '\\'
  {
    assert forall c | c in tail :: c in path;
    assert forall c | c in front + tail :: c in front || c in tail;
  }

  /** Printing what the door judged and parsing it again yields the same judgement. */
  lemma PrintedParsesBack(path: string)
    requires Parse(path).Some?
    ensures Parse(path).value.segments != [] && Parse(Print(Parse(path).value)) == Parse(path)
  {
    var c := Parse(path).value;
    var raws, mark := AcceptedIsSpelled(path);
    PrintedIsClean(path);
    forall i | 0 <= i < |c.segments|
      ensures '/' !in c.segments[i] && '?' !in c.segments[i] && Spells(c.segments[i], c.segments[i])
    {
      SafeSpellsItself(c.segments[i]);
    }
    SpelledIsAccepted(c.segments, c.segments, c.query, c.query != "");
  }
}
