/** The `application/x-www-form-urlencoded` parser behind `URLSearchParams`
    (section 5.1 of the WHATWG URL Standard), its `get` (section 6.2) and the
    matching serializer (section 5.2).

    Percent-decoding with the `+`-to-space rule and its inverse,
    percent-encoding, are parameters: `decode` and `encode`. The parser's
    structure (pieces, names, values, their order) is modelled exactly. */
module FormUrlencoded {
  import opened Wrappers
  import opened Strings

  datatype Pair = Pair(name: string, value: string)

  /** A non-empty piece splits at its first `=`; without one, the whole piece
      is the name and the value is empty. */
  function SplitPair(piece: string): (p: Pair)
    ensures '=' !in p.name
    ensures '=' in piece ==> p.name + "=" + p.value == piece
    ensures '=' !in piece ==> p == Pair(piece, "")
  {
    var i := IndexOf(piece, '=');
    if i == |piece| then Pair(piece, "")
    else
      assert piece == piece[..i] + "=" + piece[i + 1..];
      Pair(piece[..i], piece[i + 1..])
  }

  /** The pairs of the pieces, in order, skipping empty pieces (as in
      `a&&b`). */
  function PiecePairs(pieces: seq<string>): (ps: seq<Pair>)
    ensures |ps| <= |pieces|
    ensures |pieces| == 1 ==> ps == if pieces[0] == "" then [] else [SplitPair(pieces[0])]
  {
    if |pieces| == 0 then []
    else if pieces[0] == "" then PiecePairs(pieces[1..])
    else [SplitPair(pieces[0])] + PiecePairs(pieces[1..])
  }

  /** Without empty pieces, the pairs are exactly the split pieces, in order. */
  lemma {:induction false} PiecePairsOfNonEmpty(pieces: seq<string>)
    requires forall i :: 0 <= i < |pieces| ==> pieces[i] != ""
    ensures |PiecePairs(pieces)| == |pieces|
    ensures forall i :: 0 <= i < |pieces| ==> PiecePairs(pieces)[i] == SplitPair(pieces[i])
    decreases |pieces|
  {
    if |pieces| > 0 {
      PiecePairsOfNonEmpty(pieces[1..]);
      assert PiecePairs(pieces) == [SplitPair(pieces[0])] + PiecePairs(pieces[1..]);
    }
  }

  /** Pieces are read left to right, each on its own: the pairs of two
      stretches of pieces are the pairs of each, one after the other. With the
      one-piece case of `PiecePairs`, this fixes the pairs of every list of
      pieces. */
  lemma {:induction false} PiecePairsAppend(a: seq<string>, b: seq<string>)
    ensures PiecePairs(a + b) == PiecePairs(a) + PiecePairs(b)
    decreases |a|
  {
    if |a| == 0 {
      assert a + b == b;
    } else {
      assert (a + b)[0] == a[0];
      assert (a + b)[1..] == a[1..] + b;
      PiecePairsAppend(a[1..], b);
    }
  }

  /** The undecoded pairs of `input`: its pieces between `&`s, in order. */
  function RawPairs(input: string): seq<Pair> {
    PiecePairs(Split(input, '&'))
  }

  /** `f` applied to every name and value. */
  function MapPairs(ps: seq<Pair>, f: string -> string): (qs: seq<Pair>)
    ensures |qs| == |ps|
    ensures forall i :: 0 <= i < |ps| ==> qs[i] == Pair(f(ps[i].name), f(ps[i].value))
  {
    if |ps| == 0 then []
    else [Pair(f(ps[0].name), f(ps[0].value))] + MapPairs(ps[1..], f)
  }

  /** The parser: the pairs of `input`, each name and value decoded. */
  function Parse(input: string, decode: string -> string): seq<Pair> {
    MapPairs(RawPairs(input), decode)
  }

  /** `new URLSearchParams(init)` for a string: a leading `?` is dropped. */
  function SearchParams(init: string, decode: string -> string): (ps: seq<Pair>)
    ensures |init| > 0 && init[0] == '?' ==> ps == Parse(init[1..], decode)
    ensures (|init| == 0 || init[0] != '?') ==> ps == Parse(init, decode)
  {
    if |init| > 0 && init[0] == '?' then Parse(init[1..], decode) else Parse(init, decode)
  }

  /** `params.get(name)`: the value of the first pair with that name. */
  function Get(ps: seq<Pair>, name: string): (r: Option<string>)
    ensures r.None? <==> forall i :: 0 <= i < |ps| ==> ps[i].name != name
    ensures r.Some? ==> exists i :: (0 <= i < |ps| && ps[i] == Pair(name, r.value)
      && forall j :: 0 <= j < i ==> ps[j].name != name)
  {
    if |ps| == 0 then None
    else if ps[0].name == name then Some(ps[0].value)
    else
      var r := Get(ps[1..], name);
      assert forall i :: 1 <= i < |ps| ==> ps[i] == ps[1..][i - 1];
      r
  }

  /** The serializer: `name=value` for each pair, encoded, joined by `&`. */
  function Serialize(ps: seq<Pair>, encode: string -> string): string {
    Join(Pieces(ps, encode), '&')
  }

  function Pieces(ps: seq<Pair>, encode: string -> string): (pieces: seq<string>)
    ensures |pieces| == |ps|
    ensures forall i :: 0 <= i < |ps| ==> pieces[i] == encode(ps[i].name) + "=" + encode(ps[i].value)
  {
    if |ps| == 0 then []
    else [encode(ps[0].name) + "=" + encode(ps[0].value)] + Pieces(ps[1..], encode)
  }

  /** An encoder the parser can undo: its output never holds a separator, and
      `decode` inverts it. */
  ghost predicate Inverts(encode: string -> string, decode: string -> string) {
    (forall s :: '&' !in encode(s) && '=' !in encode(s))
    && (forall s :: decode(encode(s)) == s)
  }

  lemma {:induction false} PiecePairsOfPieces(ps: seq<Pair>, encode: string -> string)
    requires forall s :: '&' !in encode(s) && '=' !in encode(s)
    ensures PiecePairs(Pieces(ps, encode)) == MapPairs(ps, encode)
    decreases |ps|
  {
    if |ps| > 0 {
      var pieces := Pieces(ps, encode);
      var n := encode(ps[0].name);
      var v := encode(ps[0].value);
      assert pieces[0] == n + "=" + v;
      assert pieces[0] != "" by { assert |pieces[0]| >= 1; }
      assert '=' in pieces[0] by { assert pieces[0][|n|] == '='; }
      var p := SplitPair(pieces[0]);
      assert p == Pair(n, v) by {
        assert p.name + "=" + p.value == n + "=" + v;
        var i := IndexOf(pieces[0], '=');
        assert i == |n| by {
          assert '=' !in n;
          assert pieces[0][..|n|] == n;
          assert pieces[0][|n|] == '=';
        }
      }
      assert pieces[1..] == Pieces(ps[1..], encode);
      PiecePairsOfPieces(ps[1..], encode);
    }
  }

  /** Parsing a serialization gives back the pairs, in order. */
  lemma ParseSerialize(ps: seq<Pair>, encode: string -> string, decode: string -> string)
    requires Inverts(encode, decode)
    ensures Parse(Serialize(ps, encode), decode) == ps
  {
    var pieces := Pieces(ps, encode);
    if |ps| == 0 {
      assert Split("", '&') == [""];
    } else {
      assert forall i :: 0 <= i < |pieces| ==> '&' !in pieces[i] by {
        forall i | 0 <= i < |pieces|
          ensures '&' !in pieces[i]
        {
          assert pieces[i] == encode(ps[i].name) + "=" + encode(ps[i].value);
          assert '&' !in encode(ps[i].name) && '&' !in encode(ps[i].value);
        }
      }
      SplitJoin(pieces, '&');
    }
    PiecePairsOfPieces(ps, encode);
    var ds := Parse(Serialize(ps, encode), decode);
    assert forall i :: 0 <= i < |ps| ==> ds[i] == ps[i];
  }

  /** A piece written as `name=value`, with no `=` in the name, splits
      back into that name and value. */
  lemma SplitPairOf(name: string, value: string)
    requires '=' !in name
    ensures name + "=" + value != ""
    ensures SplitPair(name + "=" + value) == Pair(name, value)
  {
    var piece := name + "=" + value;
    assert piece[..|name|] == name;
    assert piece[|name|] == '=';
    assert IndexOf(piece, '=') == |name|;
  }

  /** The undecoded pairs of `name=a&name=b`. */
  lemma TwoPairs(name: string, a: string, b: string)
    requires '&' !in name && '=' !in name && '&' !in a && '&' !in b
    ensures RawPairs(name + "=" + a + "&" + name + "=" + b) == [Pair(name, a), Pair(name, b)]
  {
    var first := name + "=" + a;
    var second := name + "=" + b;
    var pieces := [first, second];
    assert name + "=" + a + "&" + name + "=" + b == Join(pieces, '&');
    SplitJoin(pieces, '&');
    SplitPairOf(name, a);
    SplitPairOf(name, b);
    assert pieces[1..] == [second];
    assert PiecePairs([second]) == [Pair(name, b)] by {
      assert [second][1..] == [];
    }
  }

  /** The first of two pairs with the same name wins: `session_id=a&session_id=b`
      gives `a`. */
  lemma FirstPairWins(name: string, a: string, b: string, decode: string -> string)
    requires '&' !in name && '=' !in name && '&' !in a && '&' !in b
    requires decode(name) == name && decode(a) == a
    ensures Get(Parse(name + "=" + a + "&" + name + "=" + b, decode), name) == Some(a)
  {
    TwoPairs(name, a, b);
  }

  /** A single `name=value` piece parses to its one pair. */
  lemma SinglePair(name: string, value: string, decode: string -> string)
    requires '&' !in name && '=' !in name && '&' !in value
    ensures Parse(name + "=" + value, decode) == [Pair(decode(name), decode(value))]
  {
    var piece := name + "=" + value;
    assert '&' !in piece;
    SplitJoin([piece], '&');
    SplitPairOf(name, value);
  }
}
