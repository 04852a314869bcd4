/** Normalisation of the `parallel_weights` text of `FDGNode.patch` (nodes.py):
    split on commas, strip and parse every piece, fall back to all ones on any
    failure, then pad with ones or truncate to exactly `levels` entries.
    Python's `float()` is the parameter `parse`; its grammar is not modelled. */
module Weights {
  import opened Wrappers
  import opened Text

  /** `[1.0] * n` */
  function Ones(n: nat): (r: seq<real>)
    ensures |r| == n && forall i :: 0 <= i < n ==> r[i] == 1.0
  {
    seq(n, _ => 1.0)
  }

  /** Applies a partial conversion to every piece, failing as soon as one piece fails. */
  function ConvertAll(pieces: seq<string>, convert: string -> Option<real>): (r: Option<seq<real>>)
    ensures r.Some? <==> forall i :: 0 <= i < |pieces| ==> convert(pieces[i]).Some?
    ensures r.Some? ==>
      && |r.value| == |pieces|
      && forall i :: 0 <= i < |pieces| ==> r.value[i] == convert(pieces[i]).value
  {
    if pieces == [] then Some([])
    else
      match convert(pieces[0])
      case None => None
      case Some(v) =>
        var rest := ConvertAll(pieces[1..], convert);
        assert forall i :: 1 <= i < |pieces| ==> pieces[1..][i - 1] == pieces[i];
        match rest
        case None => None
        case Some(vs) => Some([v] + vs)
  }

  /** `[float(w.strip()) for w in pieces]`, where a piece that does not parse makes
      the whole comprehension fail. */
  function ParseAll(pieces: seq<string>, parse: string -> Option<real>): (r: Option<seq<real>>)
    ensures r.Some? <==> forall i :: 0 <= i < |pieces| ==> parse(Strip(pieces[i])).Some?
    ensures r.Some? ==>
      && |r.value| == |pieces|
      && forall i :: 0 <= i < |pieces| ==> r.value[i] == parse(Strip(pieces[i])).value
  {
    ConvertAll(pieces, w => parse(Strip(w)))
  }

  /** The list after the `try`/`except` of nodes.py: the parsed values when every
      comma-separated piece parses, otherwise `levels` ones with no parsed prefix kept. */
  function ParseWeightList(text: string, levels: nat, parse: string -> Option<real>): (r: seq<real>)
    ensures var pieces := Split(text, ',');
      (forall i :: 0 <= i < |pieces| ==> parse(Strip(pieces[i])).Some?) ==>
        && |r| == |pieces|
        && forall i :: 0 <= i < |pieces| ==> r[i] == parse(Strip(pieces[i])).value
    ensures var pieces := Split(text, ',');
      (exists i :: 0 <= i < |pieces| && parse(Strip(pieces[i])).None?) ==> r == Ones(levels)
  {
    match ParseAll(Split(text, ','), parse)
    case Some(ws) => ws
    case None => Ones(levels)
  }

  /** The empty text splits into one empty piece; when that piece does not parse
      (as with Python's `float("")`) the weights fall back to all ones. */
  lemma EmptyTextFallsBack(levels: nat, parse: string -> Option<real>)
    requires parse("").None?
    ensures ParseWeightList("", levels, parse) == Ones(levels)
  {
    assert Split("", ',') == [""];
    assert Strip("") == "";
  }

  /** The padding and truncation of nodes.py: the list is extended with ones when it
      is shorter than `levels` and cut to its first `levels` entries when longer. */
  method NormalizeWeights(parsed: seq<real>, levels: nat) returns (weights: seq<real>)
    ensures |weights| == levels
    ensures forall i :: 0 <= i < levels && i < |parsed| ==> weights[i] == parsed[i]
    ensures forall i :: |parsed| <= i < levels ==> weights[i] == 1.0
  {
    weights := parsed;
    if |weights| < levels {
      weights := weights + Ones(levels - |weights|);
    } else if |weights| > levels {
      weights := weights[..levels];
    }
  }

  /** Two comma-separated numerals parse to their two values. */
  lemma ParseTwo(a: string, b: string, levels: nat, parse: string -> Option<real>, x: real, y: real)
    requires ',' !in a && ',' !in b
    requires parse(Strip(a)) == Some(x) && parse(Strip(b)) == Some(y)
    ensures ParseWeightList(a + [','] + b, levels, parse) == [x, y]
  {
    SplitTwo(a, ',', b);
    ParseAllTwo(a, b, parse, x, y);
  }

  lemma ParseAllTwo(a: string, b: string, parse: string -> Option<real>, x: real, y: real)
    requires parse(Strip(a)) == Some(x) && parse(Strip(b)) == Some(y)
    ensures ParseAll([a, b], parse) == Some([x, y])
  {
    var parsed := ParseAll([a, b], parse);
    assert parsed.Some?;
    assert parsed.value == [x, y];
  }

  /** The normalisation examples: [1, 2] over four levels pads to [1, 2, 1, 1],
      and five values over four levels keep the first four. */
  method NormalizeExamples()
  {
    var w := NormalizeWeights([1.0, 2.0], 4);
    assert w == [1.0, 2.0, 1.0, 1.0];
    var v := NormalizeWeights([1.0, 2.0, 3.0, 4.0, 5.0], 4);
    assert v == [1.0, 2.0, 3.0, 4.0];
  }
}
