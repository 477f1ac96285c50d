/** Small definitions shared by the models: optional values, results and prefix/suffix facts. */
module Prelude {

  datatype Option<+T> = None | Some(value: T)

  datatype Result<+T, +E> = Ok(value: T) | Err(error: E)

  // The source's `x ?? y` on an optional value.
  function Coalesce<T>(first: Option<T>, second: Option<T>): Option<T> {
    if first.Some? then first else second
  }

  function Max(a: int, b: int): int {
    if a < b then b else a
  }

  function Min(a: int, b: int): int {
    if a < b then a else b
  }

  // What a filter keeps comes from increasing positions.
  ghost predicate Embeds<T>(positions: seq<nat>, part: seq<T>, whole: seq<T>) {
    && |positions| == |part|
    && (forall i :: 0 <= i < |part| ==> positions[i] < |whole| && whole[positions[i]] == part[i])
    && (forall i, j :: 0 <= i < j < |part| ==> positions[i] < positions[j])
  }

  lemma EmbedsBehind<T>(positions: seq<nat>, part: seq<T>, whole: seq<T>) returns (shifted: seq<nat>)
    requires whole != [] && Embeds(positions, part, whole[1..])
    ensures Embeds(shifted, part, whole) && forall i :: 0 <= i < |shifted| ==> shifted[i] > 0
  {
    shifted := seq(|positions|, i requires 0 <= i < |positions| => positions[i] + 1);
    assert forall i :: 0 <= i < |part| ==> whole[shifted[i]] == whole[1..][positions[i]];
  }

  lemma EmbedsFirst<T>(positions: seq<nat>, part: seq<T>, whole: seq<T>)
    requires whole != [] && Embeds(positions, part, whole) && forall i :: 0 <= i < |positions| ==> positions[i] > 0
    ensures Embeds([0] + positions, [whole[0]] + part, whole)
  {
    var positions', part' := [0] + positions, [whole[0]] + part;
    assert forall i :: 1 <= i < |part'| ==> part'[i] == part[i - 1] && positions'[i] == positions[i - 1];
  }

  function Filter<T>(keep: T -> bool, list: seq<T>): seq<T> {
    if list == [] then []
    else if keep(list[0]) then [list[0]] + Filter(keep, list[1..])
    else Filter(keep, list[1..])
  }
}
