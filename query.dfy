/**
 * `URLSearchParams` as an ordered list of name/value pairs, and a URL as a
 * base and such a list. Percent-encoding and `+`-decoding are not modelled:
 * names and values are kept as the handlers see them after decoding.
 */
module Query {
  import opened Js

  type Params = seq<(string, string)>

  /** A redirect target: `${base}?${query}`. */
  datatype Url = Url(base: string, query: Params)

  predicate HasName(p: Params, k: string)
  {
    exists i :: 0 <= i < |p| && p[i].0 == k
  }

  /** `params.get(k)`: the value of the first pair named `k`. */
  function Get(p: Params, k: string): (r: Option<string>)
    ensures r.Some? <==> HasName(p, k)
  {
    if p == [] then None
    else if p[0].0 == k then Some(p[0].1)
    else
      assert HasName(p, k) <==> HasName(p[1..], k) by {
        if HasName(p, k) { var i :| 0 <= i < |p| && p[i].0 == k; assert p[1..][i - 1].0 == k; }
        if HasName(p[1..], k) { var i :| 0 <= i < |p| - 1 && p[1..][i].0 == k; assert p[i + 1].0 == k; }
      }
      Get(p[1..], k)
  }

  /** `get(k)` finds the first pair named `k`. */
  lemma {:induction false} GetAt(p: Params, i: nat, k: string)
    requires i < |p| && p[i].0 == k
    requires forall j :: 0 <= j < i ==> p[j].0 != k
    ensures Get(p, k) == Some(p[i].1)
  {
    if i > 0 {
      GetAt(p[1..], i - 1, k);
    }
  }

  /** The pairs not named `k`, in their order. */
  function Without(p: Params, k: string): (r: Params)
    ensures !HasName(r, k)
  {
    if p == [] then []
    else if p[0].0 == k then Without(p[1..], k)
    else [p[0]] + Without(p[1..], k)
  }

  /** The first pair named `k` gets value `v`; later pairs named `k` are removed. */
  function ReplaceFirst(p: Params, k: string, v: string): Params
  {
    if p == [] then []
    else if p[0].0 == k then [(k, v)] + Without(p[1..], k)
    else [p[0]] + ReplaceFirst(p[1..], k, v)
  }

  /** `params.set(k, v)` */
  function Set(p: Params, k: string, v: string): Params
  {
    if HasName(p, k) then ReplaceFirst(p, k, v) else p + [(k, v)]
  }

  lemma {:induction false} GetWithout(p: Params, k: string, k': string)
    requires k' != k
    ensures Get(Without(p, k), k') == Get(p, k')
  {
    if p != [] {
      GetWithout(p[1..], k, k');
    }
  }

  lemma {:induction false} GetAppend(p: Params, q: Params, k: string)
    requires !HasName(p, k)
    ensures Get(p + q, k) == Get(q, k)
  {
    if p == [] {
      assert p + q == q;
    } else {
      assert p[0].0 != k;
      assert (p + q)[1..] == p[1..] + q;
      GetAppend(p[1..], q, k);
    }
  }

  lemma {:induction false} ReplaceFirstGet(p: Params, k: string, v: string, k': string)
    requires HasName(p, k)
    ensures Get(ReplaceFirst(p, k, v), k) == Some(v)
    ensures k' != k ==> Get(ReplaceFirst(p, k, v), k') == Get(p, k')
  {
    if p[0].0 == k {
      if k' != k { GetWithout(p[1..], k, k'); }
    } else {
      assert HasName(p[1..], k) by {
        var i :| 0 <= i < |p| && p[i].0 == k;
        assert p[1..][i - 1].0 == k;
      }
      ReplaceFirstGet(p[1..], k, v, k');
    }
  }

  lemma {:induction false} ReplaceFirstWithout(p: Params, k: string, v: string)
    ensures Without(ReplaceFirst(p, k, v), k) == Without(p, k)
  {
    if p != [] {
      if p[0].0 == k {
        WithoutIdempotent(p[1..], k);
      } else {
        ReplaceFirstWithout(p[1..], k, v);
      }
    }
  }

  lemma {:induction false} WithoutIdempotent(p: Params, k: string)
    ensures Without(Without(p, k), k) == Without(p, k)
  {
    if p != [] {
      WithoutIdempotent(p[1..], k);
    }
  }

  lemma {:induction false} WithoutAppend(p: Params, q: Params, k: string)
    ensures Without(p + q, k) == Without(p, k) + Without(q, k)
  {
    if p == [] {
      assert p + q == q;
    } else {
      assert (p + q)[1..] == p[1..] + q;
      WithoutAppend(p[1..], q, k);
    }
  }

  /** After `set(k, v)`, `get(k)` is `v` and every other name reads as before. */
  lemma SetGet(p: Params, k: string, v: string, k': string)
    ensures Get(Set(p, k, v), k) == Some(v)
    ensures k' != k ==> Get(Set(p, k, v), k') == Get(p, k')
  {
    if HasName(p, k) {
      ReplaceFirstGet(p, k, v, k');
    } else {
      GetAppend(p, [(k, v)], k);
      if k' != k {
        if HasName(p, k') {
          var i :| 0 <= i < |p| && p[i].0 == k';
          GetPrefix(p, [(k, v)], k', i);
        } else {
          GetAppend(p, [(k, v)], k');
        }
      }
    }
  }

  lemma {:induction false} GetPrefix(p: Params, q: Params, k: string, i: nat)
    requires i < |p| && p[i].0 == k
    ensures Get(p + q, k) == Get(p, k)
  {
    if p[0].0 != k {
      assert (p + q)[1..] == p[1..] + q;
      GetPrefix(p[1..], q, k, i - 1);
    }
  }

  /** `set(k, v)` leaves the pairs with other names, and their order, alone. */
  lemma SetKeepsOthers(p: Params, k: string, v: string)
    ensures Without(Set(p, k, v), k) == Without(p, k)
  {
    if HasName(p, k) {
      ReplaceFirstWithout(p, k, v);
    } else {
      WithoutAppend(p, [(k, v)], k);
      assert Without([(k, v)], k) == [];
    }
  }

  // ---------------------------------------------------------------------------
  // Splitting strings and parsing a query string

  /** The index of the first `c` in `s`. */
  function IndexOf(s: string, c: char): (i: nat)
    requires c in s
    ensures i < |s| && s[i] == c && c !in s[..i]
  {
    if s[0] == c then 0
    else
      var j := IndexOf(s[1..], c);
      assert s[..j + 1] == [s[0]] + s[1..][..j];
      j + 1
  }

  /** `s.split(c)` */
  function Split(s: string, c: char): (parts: seq<string>)
    ensures |parts| >= 1
    ensures forall i :: 0 <= i < |parts| ==> c !in parts[i]
    decreases |s|
  {
    if c !in s then [s]
    else
      var i := IndexOf(s, c);
      [s[..i]] + Split(s[i + 1..], c)
  }

  lemma SplitPrefix(a: string, c: char, b: string)
    requires c !in a
    ensures Split(a + [c] + b, c) == [a] + Split(b, c)
  {
    var s := a + [c] + b;
    assert s[|a|] == c;
    var i := IndexOf(s, c);
    assert i == |a|;
    assert s[..i] == a;
    assert s[i + 1..] == b;
  }

  /** One `name=value` segment; a segment without `=` has the empty value. */
  function ParsePair(seg: string): (string, string)
  {
    if '=' in seg then
      var i := IndexOf(seg, '=');
      (seg[..i], seg[i + 1..])
    else (seg, "")
  }

  function ParseSegments(segs: seq<string>): Params
  {
    if segs == [] then []
    else if segs[0] == "" then ParseSegments(segs[1..])
    else [ParsePair(segs[0])] + ParseSegments(segs[1..])
  }

  /** `new URLSearchParams(q)` for a query string without a leading `?`. */
  function Parse(q: string): Params
  {
    ParseSegments(Split(q, '&'))
  }

  /** A pair that survives serialising and parsing unchanged. */
  predicate WellFormedPair(pair: (string, string))
  {
    pair.0 != "" && '=' !in pair.0 && '&' !in pair.0 && '&' !in pair.1
  }

  predicate WellFormed(p: Params)
  {
    forall i :: 0 <= i < |p| ==> WellFormedPair(p[i])
  }

  /** `params.toString()`, without percent-encoding. */
  function Serialize(p: Params): string
  {
    if p == [] then ""
    else if |p| == 1 then p[0].0 + "=" + p[0].1
    else p[0].0 + "=" + p[0].1 + "&" + Serialize(p[1..])
  }

  lemma {:induction false} SerializeNoQuestionMark(p: Params)
    requires forall i :: 0 <= i < |p| ==> '?' !in p[i].0 && '?' !in p[i].1
    ensures '?' !in Serialize(p)
  {
    if |p| > 1 {
      SerializeNoQuestionMark(p[1..]);
    }
  }

  lemma ParsePairOf(pair: (string, string))
    requires WellFormedPair(pair)
    ensures ParsePair(pair.0 + "=" + pair.1) == pair
  {
    var seg := pair.0 + "=" + pair.1;
    assert seg[|pair.0|] == '=';
    var i := IndexOf(seg, '=');
    assert i == |pair.0|;
    assert seg[..i] == pair.0;
    assert seg[i + 1..] == pair.1;
  }

  /** Parsing a serialised well-formed list gives the list back. */
  lemma {:induction false} ParseSerialize(p: Params)
    requires WellFormed(p)
    ensures Parse(Serialize(p)) == p
  {
    if p == [] {
      assert Split("", '&') == [""];
    } else {
      var seg := p[0].0 + "=" + p[0].1;
      assert WellFormedPair(p[0]);
      ParsePairOf(p[0]);
      assert seg != "";
      if |p| == 1 {
        assert Serialize(p) == seg;
        assert Split(seg, '&') == [seg];
        assert ParseSegments([seg]) == [ParsePair(seg)] + ParseSegments([]);
      } else {
        assert Serialize(p) == seg + "&" + Serialize(p[1..]);
        SplitPrefix(seg, '&', Serialize(p[1..]));
        ParseSerialize(p[1..]);
      }
    }
  }
}
