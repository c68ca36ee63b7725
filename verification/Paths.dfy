/** Runs as labelled paths, whatever the system. */
module Paths {
  /** A sequence of labelled moves leads from `s` to `t`. */
  ghost predicate Path<S(!new), E>(moves: (S, E, S) -> bool, s: S, labels: seq<E>, t: S)
    decreases |labels|
  {
    if |labels| == 0 then s == t else exists m :: moves(s, labels[0], m) && Path(moves, m, labels[1..], t)
  }

  lemma {:induction false} PathOn<S(!new), E>(
    moves: (S, E, S) -> bool, s: S, first: seq<E>, m: S, rest: seq<E>, t: S)
    requires Path(moves, s, first, m) && Path(moves, m, rest, t)
    ensures Path(moves, s, first + rest, t)
    decreases |first|
  {
    if |first| == 0 {
      assert first + rest == rest;
    } else {
      var x :| moves(s, first[0], x) && Path(moves, x, first[1..], m);
      assert (first + rest)[1..] == first[1..] + rest;
      PathOn(moves, x, first[1..], m, rest, t);
    }
  }

  lemma PathSnoc<S(!new), E>(moves: (S, E, S) -> bool, s: S, first: seq<E>, m: S, e: E, t: S)
    requires Path(moves, s, first, m) && moves(m, e, t)
    ensures Path(moves, s, first + [e], t)
  {
    PathOne(moves, m, e, t);
    PathOn(moves, s, first, m, [e], t);
  }

  lemma PathOne<S(!new), E>(moves: (S, E, S) -> bool, s: S, e: E, t: S)
    requires moves(s, e, t)
    ensures Path(moves, s, [e], t)
  {
    assert [e][1..] == [];
    assert Path(moves, t, [e][1..], t);
  }
}
