/** The query-string parser `US` of the web server: the text after the first
    '?' is split on '&', and every segment `key=value` with a non-empty key is
    stored in a map, a later segment overwriting an earlier one. */
module QueryString {
  import opened Results

  /** JavaScript's `s.indexOf(c)`: the first index of `c` in `s`, or -1. */
  function IndexOf(s: string, c: char): (i: int)
    ensures -1 <= i < |s|
    ensures i == -1 ==> forall k :: 0 <= k < |s| ==> s[k] != c
    ensures 0 <= i ==> s[i] == c && forall k :: 0 <= k < i ==> s[k] != c
  {
    if |s| == 0 then -1
    else if s[0] == c then 0
    else
      var j := IndexOf(s[1..], c);
      if j < 0 then -1 else j + 1
  }

  /** JavaScript's `s.split(sep)` for a one-character separator: the pieces
      between consecutive separators, empty pieces included. */
  function Split(s: string, sep: char): (parts: seq<string>)
    ensures |parts| >= 1
    decreases |s|
  {
    var i := IndexOf(s, sep);
    if i < 0 then [s] else [s[..i]] + Split(s[i + 1..], sep)
  }

  /** No piece of a split holds the separator. */
  lemma {:induction false} SplitSeparated(s: string, sep: char)
    ensures forall i :: 0 <= i < |Split(s, sep)| ==> sep !in Split(s, sep)[i]
    decreases |s|
  {
    var i := IndexOf(s, sep);
    if i >= 0 {
      var rest := s[i + 1..];
      SplitSeparated(rest, sep);
      SplitAt(s, sep);
      BeforeFirst(s, sep);
      var parts := Split(s, sep);
      forall k | 0 <= k < |parts| ensures sep !in parts[k] {
        if k > 0 {
          assert parts[k] == Split(rest, sep)[k - 1];
        }
      }
    }
  }

  /** The text before the first `c` holds no `c`. */
  lemma BeforeFirst(s: string, c: char)
    requires IndexOf(s, c) >= 0
    ensures c !in s[..IndexOf(s, c)]
  {
    var i := IndexOf(s, c);
    assert forall k :: 0 <= k < i ==> s[..i][k] == s[k];
  }

  /** The inverse of `Split`: the pieces with one separator between neighbours. */
  function Join(parts: seq<string>, sep: char): string
  {
    if |parts| == 0 then ""
    else if |parts| == 1 then parts[0]
    else parts[0] + [sep] + Join(parts[1..], sep)
  }

  /** One step of `Split` at the first separator. */
  lemma SplitAt(s: string, sep: char)
    requires IndexOf(s, sep) >= 0
    ensures Split(s, sep) == [s[..IndexOf(s, sep)]] + Split(s[IndexOf(s, sep) + 1..], sep)
  {
  }

  /** One step of `Join` in front of a non-empty list of pieces. */
  lemma JoinCons(a: string, tail: seq<string>, sep: char)
    requires |tail| >= 1
    ensures Join([a] + tail, sep) == a + [sep] + Join(tail, sep)
  {
    assert ([a] + tail)[1..] == tail;
  }

  /** Splitting and joining again gives back the original text. */
  lemma {:induction false} JoinSplit(s: string, sep: char)
    ensures Join(Split(s, sep), sep) == s
    decreases |s|
  {
    var i := IndexOf(s, sep);
    if i >= 0 {
      var rest := s[i + 1..];
      JoinSplit(rest, sep);
      SplitAt(s, sep);
      JoinCons(s[..i], Split(rest, sep), sep);
      Reassemble(s, i);
    }
  }

  /** A text is its part before index `i`, the character at `i`, and the rest. */
  lemma Reassemble<T>(s: seq<T>, i: int)
    requires 0 <= i < |s|
    ensures s == s[..i] + [s[i]] + s[i + 1..]
  {
  }

  /** The first `c` of `a + [c] + b` is the one after `a` when `a` holds none. */
  lemma {:induction false} IndexOfAfter(a: string, c: char, b: string)
    requires c !in a
    ensures IndexOf(a + [c] + b, c) == |a|
  {
    if a != [] {
      assert (a + [c] + b)[1..] == a[1..] + [c] + b;
      IndexOfAfter(a[1..], c, b);
    }
  }

  /** Joining separator-free pieces and splitting again gives back the pieces. */
  lemma {:induction false} SplitJoin(parts: seq<string>, sep: char)
    requires |parts| >= 1
    requires forall i :: 0 <= i < |parts| ==> sep !in parts[i]
    ensures Split(Join(parts, sep), sep) == parts
  {
    if |parts| > 1 {
      var rest := Join(parts[1..], sep);
      var s := parts[0] + [sep] + rest;
      assert Join(parts, sep) == s;
      IndexOfAfter(parts[0], sep, rest);
      assert s[|parts[0]| + 1..] == rest;
      assert s[..|parts[0]|] == parts[0];
      SplitJoin(parts[1..], sep);
      assert Split(s, sep) == [parts[0]] + Split(rest, sep);
      assert parts == [parts[0]] + parts[1..];
    }
  }

  /** One segment `key=value`: present exactly when the first '=' is at an
      index greater than 0; the key is the text before it, the value the raw
      text after it. */
  function Pair(segment: string): (r: Option<(string, string)>)
    ensures r.Some? ==> segment == r.value.0 + "=" + r.value.1
    ensures r.Some? ==> r.value.0 != "" && '=' !in r.value.0
    ensures r.None? <==> '=' !in segment || segment[0] == '='
  {
    var num := IndexOf(segment, '=');
    if num > 0 then
      assert segment == segment[..num] + "=" + segment[num + 1..];
      Some((segment[..num], segment[num + 1..]))
    else None
  }

  /** A key free of '=' followed by '=' and any value parses back to that key and value. */
  lemma PairOfEncoded(key: string, value: string)
    requires key != "" && '=' !in key
    ensures Pair(key + "=" + value) == Some((key, value))
  {
    var seg := key + "=" + value;
    IndexOfAfter(key, '=', value);
    assert seg[..|key|] == key;
    assert seg[|key| + 1..] == value;
  }

  /** The map the segments build when they are stored one after the other,
      each later key overwriting an earlier one. */
  function Collect(segments: seq<string>): map<string, string>
  {
    if segments == [] then map[]
    else Store(Collect(segments[..|segments| - 1]), segments[|segments| - 1])
  }

  /** The map after one segment is stored into `m`: `map.set(key, value)` when
      the segment is a pair, `m` itself otherwise. */
  function Store(m: map<string, string>, segment: string): map<string, string>
  {
    match Pair(segment)
    case Some(p) => m[p.0 := p.1]
    case None => m
  }

  /** The text after the first '?', or all of it when there is none. */
  function AfterQuestion(str: string): string
  {
    str[IndexOf(str, '?') + 1..]
  }

  /** What `US(str)` returns. */
  function Query(str: string): map<string, string>
  {
    Collect(Split(AfterQuestion(str), '&'))
  }

  /** The parser as the server runs it: one pass over the segments, filling a map. */
  method US(str: string) returns (m: map<string, string>)
    ensures m == Query(str)
  {
    m := map[];
    var num := IndexOf(str, '?');
    var rest := str[num + 1..];
    var arr := Split(rest, '&');
    var i := 0;
    while i < |arr|
      invariant 0 <= i <= |arr|
      invariant m == Collect(arr[..i])
    {
      num := IndexOf(arr[i], '=');
      CollectSnoc(arr, i);
      if num > 0 {
        m := m[arr[i][..num] := arr[i][num + 1..]];
      }
      i := i + 1;
    }
    assert arr[..|arr|] == arr;
  }

  /** Storing the segments up to and including index `i`. */
  lemma CollectSnoc(segments: seq<string>, i: int)
    requires 0 <= i < |segments|
    ensures Collect(segments[..i + 1]) == Store(Collect(segments[..i]), segments[i])
  {
    var prefix := segments[..i + 1];
    assert prefix != [] && |prefix| - 1 == i;
    assert prefix[..i] == segments[..i];
    assert prefix[i] == segments[i];
  }

  /** A key is in the map exactly when some segment carries it. */
  lemma {:induction false} CollectKeys(segments: seq<string>, key: string)
    ensures key in Collect(segments) <==> exists j :: 0 <= j < |segments| && Carries(segments[j], key)
  {
    if segments != [] {
      var n := |segments| - 1;
      CollectKeys(segments[..n], key);
      StoreKeys(Collect(segments[..n]), segments[n], key);
      SomeCarriesSnoc(segments, key);
    }
  }

  /** Some segment carries `key` exactly when one before the last does, or the last does. */
  lemma SomeCarriesSnoc(segments: seq<string>, key: string)
    requires segments != []
    ensures var n := |segments| - 1;
            (exists j :: 0 <= j < |segments| && Carries(segments[j], key))
            <==> (exists j :: 0 <= j < n && Carries(segments[..n][j], key)) || Carries(segments[n], key)
  {
    var n := |segments| - 1;
    var init := segments[..n];
    if j :| 0 <= j < n && Carries(init[j], key) {
      assert segments[j] == init[j];
    }
    if j :| 0 <= j < |segments| && Carries(segments[j], key) {
      if j < n {
        assert init[j] == segments[j];
      }
    }
  }

  /** Storing a segment adds exactly the key it carries. */
  lemma StoreKeys(m: map<string, string>, segment: string, key: string)
    ensures key in Store(m, segment) <==> key in m || Carries(segment, key)
  {
  }

  /** The segment is a pair whose key is `key`. */
  predicate Carries(segment: string, key: string)
  {
    Pair(segment).Some? && Pair(segment).value.0 == key
  }

  /** The value stored for a key is the one of the last segment that carries it. */
  lemma {:induction false} CollectLastWins(segments: seq<string>, j: int, key: string)
    requires 0 <= j < |segments| && Carries(segments[j], key)
    requires forall i :: j < i < |segments| ==> !Carries(segments[i], key)
    ensures key in Collect(segments) && Collect(segments)[key] == Pair(segments[j]).value.1
  {
    var n := |segments| - 1;
    var init := segments[..n];
    assert segments == init + [segments[n]];
    if j < n {
      assert init[j] == segments[j];
      forall i | j < i < n ensures !Carries(init[i], key) {
        assert init[i] == segments[i];
      }
      CollectLastWins(init, j, key);
    }
  }

  /** The index of the last segment that carries `key`, at or after `j`. */
  function LastWithKey(segments: seq<string>, j: int, key: string): (last: int)
    requires 0 <= j < |segments| && Carries(segments[j], key)
    ensures j <= last < |segments| && Carries(segments[last], key)
    ensures forall i :: last < i < |segments| ==> !Carries(segments[i], key)
    decreases |segments| - j
  {
    if i :| j < i < |segments| && Carries(segments[i], key) then LastWithKey(segments, i, key)
    else j
  }

  /** Every key of the result is non-empty and free of '=' and '&'; no value holds '&'. */
  lemma QueryWellFormed(str: string)
    ensures forall k :: k in Query(str) ==> k != "" && '=' !in k && '&' !in k && '&' !in Query(str)[k]
  {
    var segments := Split(AfterQuestion(str), '&');
    forall k | k in Query(str)
      ensures k != "" && '=' !in k && '&' !in k && '&' !in Query(str)[k]
    {
      CollectKeys(segments, k);
      var j :| 0 <= j < |segments| && Carries(segments[j], k);
      var last := LastWithKey(segments, j, k);
      CollectLastWins(segments, last, k);
      var seg := segments[last];
      SplitSeparated(AfterQuestion(str), '&');
      var v := Pair(seg).value.1;
      assert seg == k + "=" + v;
      assert '&' !in seg;
      assert forall c :: c in k ==> c in seg;
      assert forall c :: c in v ==> c in seg;
    }
  }

  /** Whatever precedes the first '?' is ignored. */
  lemma IgnoresTextBeforeQuestion(path: string, rest: string)
    requires '?' !in path
    ensures Query(path + "?" + rest) == Collect(Split(rest, '&'))
  {
    IndexOfAfter(path, '?', rest);
    assert (path + "?" + rest)[|path| + 1..] == rest;
  }

  /** Without a '?', the whole string is parsed. */
  lemma WholeStringWithoutQuestion(str: string)
    requires '?' !in str
    ensures Query(str) == Collect(Split(str, '&'))
  {
  }

  /** A key/value pair the server can carry: a non-empty key free of '=' and
      '&', and a value free of '&'. */
  predicate Carriable(p: (string, string))
  {
    p.0 != "" && '=' !in p.0 && '&' !in p.0 && '&' !in p.1
  }

  /** The segment `key=value` of each pair. */
  function Segments(pairs: seq<(string, string)>): (segments: seq<string>)
    ensures |segments| == |pairs|
    ensures forall i :: 0 <= i < |pairs| ==> segments[i] == pairs[i].0 + "=" + pairs[i].1
  {
    if pairs == [] then [] else Segments(pairs[..|pairs| - 1]) + [pairs[|pairs| - 1].0 + "=" + pairs[|pairs| - 1].1]
  }

  /** The query string `?k1=v1&k2=v2&...` for the given pairs. */
  function Encode(pairs: seq<(string, string)>): string
  {
    "?" + Join(Segments(pairs), '&')
  }

  /** Each encoded segment parses back to its pair. */
  lemma SegmentsParse(pairs: seq<(string, string)>)
    requires forall i :: 0 <= i < |pairs| ==> Carriable(pairs[i])
    ensures forall i :: 0 <= i < |pairs| ==> Pair(Segments(pairs)[i]) == Some(pairs[i])
  {
    forall i | 0 <= i < |pairs| ensures Pair(Segments(pairs)[i]) == Some(pairs[i]) {
      PairOfEncoded(pairs[i].0, pairs[i].1);
    }
  }

  /** No encoded segment holds the separator '&'. */
  lemma SegmentsSeparated(pairs: seq<(string, string)>)
    requires forall i :: 0 <= i < |pairs| ==> Carriable(pairs[i])
    ensures forall i :: 0 <= i < |pairs| ==> '&' !in Segments(pairs)[i]
  {
    var segments := Segments(pairs);
    forall i | 0 <= i < |pairs| ensures '&' !in segments[i] {
      assert forall c :: c in segments[i] ==> c in pairs[i].0 || c == '=' || c in pairs[i].1;
    }
  }

  /** The text after the leading '?' of an encoded query is the joined segments. */
  lemma AfterQuestionOfEncode(pairs: seq<(string, string)>)
    ensures AfterQuestion(Encode(pairs)) == Join(Segments(pairs), '&')
  {
    var joined := Join(Segments(pairs), '&');
    IndexOfAfter("", '?', joined);
    assert [] + ['?'] + joined == Encode(pairs);
  }

  /** The empty query string yields the empty map. */
  lemma EmptyQuery()
    ensures Collect(Split("", '&')) == map[]
  {
    assert Split("", '&') == [""];
    assert Collect([""]) == Store(map[], "");
  }

  /** Parsing an encoded query stores the encoded segments, in order. */
  lemma EncodedSegments(pairs: seq<(string, string)>)
    requires forall i :: 0 <= i < |pairs| ==> Carriable(pairs[i])
    ensures Query(Encode(pairs)) == Collect(Segments(pairs))
  {
    AfterQuestionOfEncode(pairs);
    if pairs == [] {
      EmptyQuery();
    } else {
      SegmentsSplit(pairs);
    }
  }

  /** Splitting the joined segments of pairs gives back the segments. */
  lemma SegmentsSplit(pairs: seq<(string, string)>)
    requires pairs != [] && forall i :: 0 <= i < |pairs| ==> Carriable(pairs[i])
    ensures Split(Join(Segments(pairs), '&'), '&') == Segments(pairs)
  {
    SegmentsSeparated(pairs);
    SplitJoin(Segments(pairs), '&');
  }

  /** A key is stored from the encoded segments exactly when some pair has it. */
  lemma KeysOfSegments(pairs: seq<(string, string)>, k: string)
    requires forall i :: 0 <= i < |pairs| ==> Carriable(pairs[i])
    ensures k in Collect(Segments(pairs)) <==> exists i :: 0 <= i < |pairs| && pairs[i].0 == k
  {
    var segments := Segments(pairs);
    SegmentsParse(pairs);
    CollectKeys(segments, k);
    if k in Collect(segments) {
      var j :| 0 <= j < |segments| && Carries(segments[j], k);
      assert pairs[j].0 == k;
    }
    if i :| 0 <= i < |pairs| && pairs[i].0 == k {
      assert Carries(segments[i], k);
    }
  }

  /** The last pair with a key gives the value stored for it. */
  lemma LastOfSegments(pairs: seq<(string, string)>, i: int)
    requires forall i :: 0 <= i < |pairs| ==> Carriable(pairs[i])
    requires 0 <= i < |pairs| && forall j :: i < j < |pairs| ==> pairs[j].0 != pairs[i].0
    ensures pairs[i].0 in Collect(Segments(pairs)) && Collect(Segments(pairs))[pairs[i].0] == pairs[i].1
  {
    var segments := Segments(pairs);
    SegmentsParse(pairs);
    assert Carries(segments[i], pairs[i].0);
    CollectLastWins(segments, i, pairs[i].0);
  }

  /** Round trip: parsing an encoded query yields exactly the keys of the
      pairs, each with the value of its last occurrence. */
  lemma QueryRoundTrip(pairs: seq<(string, string)>)
    requires forall i :: 0 <= i < |pairs| ==> Carriable(pairs[i])
    ensures forall k :: k in Query(Encode(pairs)) <==> exists i :: 0 <= i < |pairs| && pairs[i].0 == k
    ensures forall i :: 0 <= i < |pairs| && (forall j :: i < j < |pairs| ==> pairs[j].0 != pairs[i].0) ==>
              pairs[i].0 in Query(Encode(pairs)) && Query(Encode(pairs))[pairs[i].0] == pairs[i].1
  {
    EncodedSegments(pairs);
    forall k ensures k in Query(Encode(pairs)) <==> exists i :: 0 <= i < |pairs| && pairs[i].0 == k {
      KeysOfSegments(pairs, k);
    }
    forall i | 0 <= i < |pairs| && (forall j :: i < j < |pairs| ==> pairs[j].0 != pairs[i].0)
      ensures pairs[i].0 in Query(Encode(pairs)) && Query(Encode(pairs))[pairs[i].0] == pairs[i].1
    {
      LastOfSegments(pairs, i);
    }
  }
}
