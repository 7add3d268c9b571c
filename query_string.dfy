/** `buildQueryString` of src/utils/storage.ts: a map / filter / join chain
    that turns the own keys of a params object into `""` or `"?k=v&k=v..."`.
    Its partner is a parser that recovers, from the produced string, every
    non-null key/value pair in order. */
module QueryString {
  import opened Text
  import opened UriEncoding

  /** A parameter value as buildQueryString tells them apart. `Scalar` holds
      the text that encodeURIComponent receives (`String(value)` for numbers
      and booleans); the items of `Arr` likewise. */
  datatype Val = Null | Undef | Scalar(text: string) | Arr(items: seq<string>)

  /** The `params` argument: something that is not an object (null,
      undefined or any primitive), or an object given by its own keys in
      `Object.keys` order. */
  datatype Params = NotAnObject | Record(entries: seq<(string, Val)>)

  /** `encodeURIComponent(key) + '=' + encodeURIComponent(value)` */
  function Pair(key: string, value: string): (r: string)
    ensures r != "" && '&' !in r
  {
    EncodeURIComponent(key) + "=" + EncodeURIComponent(value)
  }

  /** The array branch: one pair per element, in element order. */
  function ArrayPairs(key: string, items: seq<string>): (r: seq<string>)
    ensures |r| == |items|
    ensures forall i :: 0 <= i < |r| ==> r[i] == Pair(key, items[i])
  {
    if items == [] then []
    else
      var rest := ArrayPairs(key, items[1..]);
      assert forall i :: 1 <= i < |items| ==> items[1..][i - 1] == items[i];
      [Pair(key, items[0])] + rest
  }

  /** The `.map` callback: what one entry contributes before filtering. */
  function EntrySegment(key: string, v: Val): string
  {
    match v
    case Null => ""
    case Undef => ""
    case Arr(items) => Join(ArrayPairs(key, items), '&')
    case Scalar(text) => Pair(key, text)
  }

  /** `Object.keys(params).map(...)` */
  function MapSegments(entries: seq<(string, Val)>): (r: seq<string>)
    ensures |r| == |entries|
  {
    if entries == [] then []
    else [EntrySegment(entries[0].0, entries[0].1)] + MapSegments(entries[1..])
  }

  /** `.filter((param) => param)`: drops the empty strings. */
  function DropEmpty(parts: seq<string>): (r: seq<string>)
    ensures AllNonEmpty(r)
    ensures |r| <= |parts|
  {
    if parts == [] then []
    else if parts[0] == "" then DropEmpty(parts[1..])
    else [parts[0]] + DropEmpty(parts[1..])
  }

  /** buildQueryString (src/utils/storage.ts:3-34). */
  function BuildQueryString(params: Params): (r: string)
    ensures r == "" || (|r| >= 2 && r[0] == '?')
  {
    if params.NotAnObject? || |params.entries| == 0 then ""
    else
      var query := Join(DropEmpty(MapSegments(params.entries)), '&');
      if query == "" then "" else "?" + query
  }

  // ---------------------------------------------------------------------
  // The reference view: the flat list of key/value pairs that reach the
  // query string.

  /** Every non-null, non-undefined value as key/value pairs, arrays spread
      element by element, in key order. */
  function Pairs(params: Params): seq<(string, string)>
  {
    if params.NotAnObject? then [] else EntryPairs(params.entries)
  }

  function EntryPairs(entries: seq<(string, Val)>): seq<(string, string)>
  {
    if entries == [] then [] else ValuePairs(entries[0].0, entries[0].1) + EntryPairs(entries[1..])
  }

  function ValuePairs(key: string, v: Val): (r: seq<(string, string)>)
    ensures v.Arr? ==> |r| == |v.items| && forall i :: 0 <= i < |r| ==> r[i] == (key, v.items[i])
    ensures v.Scalar? ==> r == [(key, v.text)]
    ensures v.Null? || v.Undef? ==> r == []
  {
    match v
    case Null => []
    case Undef => []
    case Scalar(text) => [(key, text)]
    case Arr(items) => seq(|items|, i requires 0 <= i < |items| => (key, items[i]))
  }

  /** The segment each pair becomes. */
  function Segments(pairs: seq<(string, string)>): (r: seq<string>)
    ensures |r| == |pairs|
    ensures forall i :: 0 <= i < |r| ==> r[i] == Pair(pairs[i].0, pairs[i].1)
  {
    if pairs == [] then [] else [Pair(pairs[0].0, pairs[0].1)] + Segments(pairs[1..])
  }

  lemma SegmentsAppend(a: seq<(string, string)>, b: seq<(string, string)>)
    ensures Segments(a + b) == Segments(a) + Segments(b)
  {
  }

  lemma ArraySegments(key: string, items: seq<string>)
    ensures Segments(ValuePairs(key, Arr(items))) == ArrayPairs(key, items)
  {
  }

  lemma SegmentsNonEmptyFree(pairs: seq<(string, string)>)
    ensures AllNonEmpty(Segments(pairs)) && FreeOf(Segments(pairs), '&')
  {
  }

  /** One entry's mapped string is the join of its pairs' segments, and is
      empty exactly when the entry has no pairs. */
  lemma EntrySegmentIsJoin(key: string, v: Val)
    ensures EntrySegment(key, v) == Join(Segments(ValuePairs(key, v)), '&')
    ensures EntrySegment(key, v) == "" <==> ValuePairs(key, v) == []
  {
    SegmentsNonEmptyFree(ValuePairs(key, v));
    JoinEmpty(Segments(ValuePairs(key, v)), '&');
    if v.Arr? {
      ArraySegments(key, v.items);
    }
  }

  /** The map / filter / join chain equals joining all pair segments. */
  lemma {:induction false} FilterJoin(entries: seq<(string, Val)>)
    ensures Join(DropEmpty(MapSegments(entries)), '&') == Join(Segments(EntryPairs(entries)), '&')
    ensures DropEmpty(MapSegments(entries)) == [] <==> EntryPairs(entries) == []
  {
    if entries != [] {
      var (key, v) := entries[0];
      var rest := entries[1..];
      FilterJoin(rest);
      EntrySegmentIsJoin(key, v);
      assert MapSegments(entries) == [EntrySegment(key, v)] + MapSegments(rest);
      assert MapSegments(entries)[1..] == MapSegments(rest);
      SegmentsAppend(ValuePairs(key, v), EntryPairs(rest));
      var head, tail := Segments(ValuePairs(key, v)), Segments(EntryPairs(rest));
      if EntrySegment(key, v) != "" && EntryPairs(rest) != [] {
        JoinAppend(head, tail, '&');
        assert DropEmpty(MapSegments(entries)) == [EntrySegment(key, v)] + DropEmpty(MapSegments(rest));
        JoinAppend([EntrySegment(key, v)], DropEmpty(MapSegments(rest)), '&');
      } else if EntrySegment(key, v) != "" {
        assert head + tail == head;
      } else {
        assert head + tail == tail;
      }
    }
  }

  /** The shape of the result: `""` exactly when no pair survives, otherwise
      `'?'` followed by the pair segments joined with single `&`s; splitting
      on `&` gives those segments back, none of them empty. */
  lemma QueryShape(params: Params)
    ensures BuildQueryString(params) == "" <==> Pairs(params) == []
    ensures Pairs(params) != [] ==>
      BuildQueryString(params) == "?" + Join(Segments(Pairs(params)), '&')
    ensures Pairs(params) != [] ==>
      Split(BuildQueryString(params)[1..], '&') == Segments(Pairs(params))
  {
    if params.Record? {
      FilterJoin(params.entries);
      SegmentsNonEmptyFree(Pairs(params));
      JoinEmpty(Segments(Pairs(params)), '&');
      if Pairs(params) != [] {
        SplitJoin(Segments(Pairs(params)), '&');
        assert ("?" + Join(Segments(Pairs(params)), '&'))[1..] == Join(Segments(Pairs(params)), '&');
      }
    }
  }

  // ---------------------------------------------------------------------
  // The parsing partner.

  function ParsePair(segment: string): Option<(string, string)>
  {
    var halves := Split(segment, '=');
    if |halves| != 2 then None
    else
      match (DecodeURIComponent(halves[0]), DecodeURIComponent(halves[1]))
      case (Some(k), Some(v)) => Some((k, v))
      case _ => None
  }

  function ParsePairs(segments: seq<string>): Option<seq<(string, string)>>
  {
    if segments == [] then Some([])
    else
      match (ParsePair(segments[0]), ParsePairs(segments[1..]))
      case (Some(p), Some(rest)) => Some([p] + rest)
      case _ => None
  }

  /** Reads a query string back into decoded key/value pairs. */
  function ParseQuery(q: string): Option<seq<(string, string)>>
  {
    if q == "" then Some([])
    else if q[0] != '?' then None
    else ParsePairs(Split(q[1..], '&'))
  }

  lemma PairRoundTrip(key: string, value: string)
    ensures ParsePair(Pair(key, value)) == Some((key, value))
  {
    var k, v := EncodeURIComponent(key), EncodeURIComponent(value);
    SplitAtFirst(k, v, '=');
    SplitFree(v, '=');
    DecodeEncode(key);
    DecodeEncode(value);
  }

  lemma {:induction false} PairsRoundTrip(pairs: seq<(string, string)>)
    ensures ParsePairs(Segments(pairs)) == Some(pairs)
  {
    if pairs != [] {
      PairRoundTrip(pairs[0].0, pairs[0].1);
      PairsRoundTrip(pairs[1..]);
      assert Segments(pairs)[1..] == Segments(pairs[1..]);
      assert [pairs[0]] + pairs[1..] == pairs;
    }
  }

  /** Every key/value pair that is neither null nor undefined comes back out
      of the query string, decoded, in order. */
  lemma QueryRoundTrip(params: Params)
    ensures ParseQuery(BuildQueryString(params)) == Some(Pairs(params))
  {
    QueryShape(params);
    if Pairs(params) != [] {
      PairsRoundTrip(Pairs(params));
    }
  }

  /** The number of `&`-separated segments is the number of pairs: one per
      scalar, one per array element, none for null or undefined. */
  lemma {:induction false} SegmentCount(entries: seq<(string, Val)>)
    ensures |EntryPairs(entries)| == PairCount(entries)
  {
    if entries != [] {
      SegmentCount(entries[1..]);
    }
  }

  function PairCount(entries: seq<(string, Val)>): nat
  {
    if entries == [] then 0
    else
      (match entries[0].1
       case Null => 0
       case Undef => 0
       case Scalar(_) => 1
       case Arr(items) => |items|) + PairCount(entries[1..])
  }
}
