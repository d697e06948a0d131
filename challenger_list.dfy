/** The challenger list handed out by the acquisition optimizer: an iterator over the
    configurations that maximise the acquisition function, fetched lazily from a callback
    the first time one of them (or the length) is needed, with configurations sampled at
    random interleaved whenever the random design says so. */
module Challengers {
  import opened TrialData

  /** The origin given to a configuration sampled at random. */
  const RandomSearchOrigin := "Random Search"

  /** The default of the optimizer's `challengers`, the number of points `maximize` asks
      for when it is given none. */
  const DefaultChallengers := 5000

  /** What one `__next__` call can end with: the end of the list, an index past the end of
      a list that turned out shorter than expected, or a configuration together with the
      origin written into it (None: the configuration keeps its own origin). */
  datatype Draw<C> = StopIteration | IndexError | Yield(config: C, origin: Option<string>)

  /** What the random design and the configuration space answer during one call: no
      design at all, the design asking for the next list item, or the design asking for a
      random configuration and the space sampling `sample`. */
  datatype Turn<C> = NoDesign | ListTurn | RandomTurn(sample: C)

  /** The iterator's state: the fetched list (None before the callback ran), the position
      in it, and the 1-based call count used to ask the design. */
  datatype Cursor<C> = Cursor(challengers: Option<seq<C>>, index: nat, iteration: nat)

  /** A new iterator: nothing fetched, position 0, iteration 1 (so that the first call does
      not start with a random configuration under a modulus design). */
  function Fresh<C(==)>(): Cursor<C>
  {
    Cursor(None, 0, 1)
  }

  /** The list in hand: the fetched one, or what the callback returns when nothing was
      fetched yet. */
  function ListOf<C(==)>(cur: Cursor<C>, callbackList: seq<C>): seq<C>
  {
    if cur.challengers.Some? then cur.challengers.value else callbackList
  }

  /** A cursor the iterator can reach: before the fetch it is at position 0; after it,
      it holds the callback's list and its position is within it. */
  predicate Reachable<C(==)>(cur: Cursor<C>, callbackList: seq<C>)
  {
    && cur.iteration >= 1
    && (cur.challengers.None? ==> cur.index == 0)
    && (cur.challengers.Some? ==> cur.challengers.value == callbackList && cur.index <= |callbackList|)
  }

  /** The next list item (fetching the list if needed), or an `IndexError` past its end;
      `bump` is how much the iteration count grows with an item. */
  function TakeListItem<C(==)>(cur: Cursor<C>, callbackList: seq<C>, bump: nat): (Cursor<C>, Draw<C>)
  {
    var list := ListOf(cur, callbackList);
    if cur.index < |list| then (Cursor(Some(list), cur.index + 1, cur.iteration + bump), Yield(list[cur.index], None))
    else (Cursor(Some(list), cur.index, cur.iteration), IndexError)
  }

  /** `__next__`: `StopIteration` once the fetched list is used up; without a design, the
      next list item; with one, a random configuration tagged "Random Search" when the
      design asks for it, the next list item otherwise, and the iteration count grows by
      one either way (not when an `IndexError` is raised). */
  function Step<C(==)>(cur: Cursor<C>, callbackList: seq<C>, turn: Turn<C>): (r: (Cursor<C>, Draw<C>))
  {
    if cur.challengers.Some? && cur.index == |cur.challengers.value| then (cur, StopIteration)
    else if turn.NoDesign? then TakeListItem(cur, callbackList, 0)
    else if turn.RandomTurn? then (cur.(iteration := cur.iteration + 1), Yield(turn.sample, Some(RandomSearchOrigin)))
    else TakeListItem(cur, callbackList, 1)
  }

  /** The draw came from the list. */
  predicate FromList<C(==)>(d: Draw<C>)
  {
    d.Yield? && d.origin.None?
  }

  /** One call never loses the fetched list, fetches at most the callback's list, and only
      when the design does not ask for a random configuration; the position grows by one
      exactly when a list item is returned, and the iteration count grows by one exactly
      when a design is present and a configuration is returned. */
  lemma StepSpec<C>(cur: Cursor<C>, callbackList: seq<C>, turn: Turn<C>)
    requires Reachable(cur, callbackList)
    ensures var (next, d) := Step(cur, callbackList, turn);
      && Reachable(next, callbackList)
      && (cur.challengers.Some? ==> next.challengers == cur.challengers)
      && (turn.RandomTurn? ==> next.challengers == cur.challengers)
      && next.index == cur.index + (if FromList(d) then 1 else 0)
      && next.iteration == cur.iteration + (if !turn.NoDesign? && d.Yield? then 1 else 0)
      && (FromList(d) ==> d.config == callbackList[cur.index])
      && (d.Yield? && d.origin.Some? <==> turn.RandomTurn? && !(cur.challengers.Some? && cur.index == |callbackList|))
      && (d.Yield? && d.origin.Some? ==> d == Yield(turn.sample, Some(RandomSearchOrigin)))
      && (d.StopIteration? <==> cur.challengers.Some? && cur.index == |callbackList|)
      && (d.IndexError? <==> !turn.RandomTurn? && cur.index == |callbackList| && cur.challengers.None?)
  {
  }

  /** Several calls, one per turn, from the cursor `cur`. */
  function Run<C(==)>(cur: Cursor<C>, callbackList: seq<C>, turns: seq<Turn<C>>): (r: (Cursor<C>, seq<Draw<C>>))
    ensures |r.1| == |turns|
    decreases |turns|
  {
    if |turns| == 0 then (cur, [])
    else
      var (next, d) := Step(cur, callbackList, turns[0]);
      var (last, ds) := Run(next, callbackList, turns[1..]);
      (last, [d] + ds)
  }

  /** The configurations taken from the list, in the order they were returned. */
  function ListItems<C(==)>(ds: seq<Draw<C>>): seq<C>
  {
    if |ds| == 0 then []
    else (if FromList(ds[0]) then [ds[0].config] else []) + ListItems(ds[1..])
  }

  /** Whatever the design answers, the list items returned are the callback's list from
      the starting position up to the final one, in order, none skipped or repeated, and
      the cursor stays reachable. */
  lemma {:induction false} RunKeepsListOrder<C>(cur: Cursor<C>, callbackList: seq<C>, turns: seq<Turn<C>>)
    requires Reachable(cur, callbackList)
    ensures var (last, ds) := Run(cur, callbackList, turns);
      && Reachable(last, callbackList)
      && cur.index <= last.index <= |callbackList|
      && ListItems(ds) == callbackList[cur.index..last.index]
    decreases |turns|
  {
    if |turns| > 0 {
      StepSpec(cur, callbackList, turns[0]);
      var (next, d) := Step(cur, callbackList, turns[0]);
      RunKeepsListOrder(next, callbackList, turns[1..]);
      var (last, ds) := Run(next, callbackList, turns[1..]);
      assert Run(cur, callbackList, turns) == (last, [d] + ds);
      assert ([d] + ds)[1..] == ds;
      if FromList(d) {
        assert callbackList[cur.index..last.index] == [callbackList[cur.index]] + callbackList[next.index..last.index];
      }
    }
  }

  /** Without a random design, the first n calls on a new iterator return the first n
      configurations of the callback's list, in order. */
  lemma {:induction false} WithoutDesignInOrder<C>(callbackList: seq<C>, n: nat)
    requires n <= |callbackList|
    ensures var (last, ds) := Run(Fresh(), callbackList, seq(n, _ => NoDesign));
      && ds == seq(n, i requires 0 <= i < n => Yield(callbackList[i], None))
      && last == (if n == 0 then Fresh() else Cursor(Some(callbackList), n, 1))
  {
    if n > 0 {
      var before: seq<Turn<C>> := seq(n - 1, _ => NoDesign);
      var all: seq<Turn<C>> := seq(n, _ => NoDesign);
      var nd: Turn<C> := NoDesign;
      WithoutDesignInOrder(callbackList, n - 1);
      RunThenStep(Fresh(), callbackList, before, nd);
      assert all == before + [nd];
    }
  }

  /** Running `turns + [t]` is running `turns` and then one `Step` on `t`. */
  lemma {:induction false} RunThenStep<C>(cur: Cursor<C>, callbackList: seq<C>, turns: seq<Turn<C>>, t: Turn<C>)
    ensures var (last, ds) := Run(cur, callbackList, turns);
            var (next, d) := Step(last, callbackList, t);
            Run(cur, callbackList, turns + [t]) == (next, ds + [d])
    decreases |turns|
  {
    if |turns| == 0 {
      assert turns + [t] == [t] && [t][1..] == [];
      var (next, d) := Step(cur, callbackList, t);
      assert Run(next, callbackList, []) == (next, []);
      assert Run(cur, callbackList, [t]) == (next, [d] + []);
      assert Run(cur, callbackList, turns) == (cur, []);
      assert [d] + [] == [] + [d];
    } else {
      assert (turns + [t])[0] == turns[0] && (turns + [t])[1..] == turns[1..] + [t];
      var (n0, d0) := Step(cur, callbackList, turns[0]);
      RunThenStep(n0, callbackList, turns[1..], t);
      var (last, ds) := Run(n0, callbackList, turns[1..]);
      var (next, d) := Step(last, callbackList, t);
      assert Run(cur, callbackList, turns) == (last, [d0] + ds);
      assert Run(cur, callbackList, turns + [t]) == (next, [d0] + (ds + [d]));
      assert [d0] + (ds + [d]) == ([d0] + ds) + [d];
    }
  }

  /** Once the whole list has been returned, every further call raises `StopIteration`
      and changes nothing. */
  lemma UsedUp<C>(cur: Cursor<C>, callbackList: seq<C>, turn: Turn<C>)
    requires cur.challengers == Some(callbackList) && cur.index == |callbackList|
    ensures Step(cur, callbackList, turn) == (cur, StopIteration)
  {
  }

  /** `__len__`: the number of list items not yet returned (random configurations are not
      counted), fetching the list if needed. */
  function Length<C(==)>(cur: Cursor<C>, callbackList: seq<C>): (r: (Cursor<C>, int))
    requires Reachable(cur, callbackList)
    ensures r.0 == cur.(challengers := Some(callbackList))
    ensures 0 <= r.1 == |callbackList| - cur.index
  {
    var list := ListOf(cur, callbackList);
    (cur.(challengers := Some(list)), |list| - cur.index)
  }

  /** Each call that returns a list item shortens the length by one; a random
      configuration leaves it unchanged. */
  lemma LengthShrinks<C>(cur: Cursor<C>, callbackList: seq<C>, turn: Turn<C>)
    requires Reachable(cur, callbackList)
    ensures var (next, d) := Step(cur, callbackList, turn);
            Length(next, callbackList).1 == Length(cur, callbackList).1 - (if FromList(d) then 1 else 0)
  {
    StepSpec(cur, callbackList, turn);
  }

  /** A random design: `check(iteration)` tells whether the call with that iteration
      count returns a random configuration. Its answer may depend on the design's own
      progress, which `next_iteration` advances. */
  class RandomDesign {
    /** How often `next_iteration` was called. */
    var progress: nat
    /** The design's decision rule, from its progress and the iteration asked about. */
    const decide: (nat, nat) -> bool

    constructor(decide: (nat, nat) -> bool)
      ensures progress == 0 && this.decide == decide
    {
      progress := 0;
      this.decide := decide;
    }

    /** `check`: whether the call with this iteration count returns a random configuration. */
    function Check(iteration: nat): bool
      reads this
    {
      decide(progress, iteration)
    }

    /** `next_iteration`: the design moves on by one. */
    method NextIteration()
      modifies this`progress
      ensures progress == old(progress) + 1
    {
      progress := progress + 1;
    }
  }

  /** The iterator as an object whose fields `__next__` and `__len__` update in place.
      `callbackList` is what the challenger callback returns; `callbackCalls` counts how
      often the callback ran. */
  class ChallengerList<C(==)> {
    const callbackList: seq<C>
    const randomDesign: Option<RandomDesign>
    var challengers: Option<seq<C>>
    var index: nat
    var iteration: nat
    ghost var callbackCalls: nat

    /** The fields, as one value. */
    function State(): Cursor<C>
      reads this
    {
      Cursor(challengers, index, iteration)
    }

    /** The state is reachable and the callback ran exactly when the list was fetched. */
    ghost predicate Valid()
      reads this
    {
      Reachable(State(), callbackList) && callbackCalls == (if challengers.Some? then 1 else 0)
    }

    /** A new list: nothing fetched, position 0, iteration 1. */
    constructor(callbackList: seq<C>, randomDesign: Option<RandomDesign>)
      ensures State() == Fresh() && this.callbackList == callbackList && this.randomDesign == randomDesign
      ensures Valid() && callbackCalls == 0
    {
      this.callbackList := callbackList;
      this.randomDesign := randomDesign;
      challengers := None;
      index := 0;
      iteration := 1;
      callbackCalls := 0;
    }

    /** What the design and the space answer for this call: `sample` is the configuration
        the space would sample. */
    function TurnOf(sample: C): Turn<C>
      reads this, if randomDesign.Some? then {randomDesign.value} else {}
    {
      if randomDesign.None? then NoDesign
      else if randomDesign.value.Check(iteration) then RandomTurn(sample)
      else ListTurn
    }

    /** Runs the callback unless the list was already fetched. */
    method Fetch()
      requires Valid()
      modifies this`challengers, this`callbackCalls
      ensures challengers == Some(callbackList) && callbackCalls == 1
    {
      if challengers.None? {
        challengers := Some(callbackList);
        callbackCalls := callbackCalls + 1;
      }
    }

    /** `__next__`, with `sample` the configuration the space would sample: the state and
        the draw are those of `Step`, and the callback has still run at most once. */
    method Next(sample: C) returns (d: Draw<C>)
      requires Valid()
      modifies this`challengers, this`index, this`iteration, this`callbackCalls
      ensures Valid()
      ensures (State(), d) == Step(old(State()), callbackList, old(TurnOf(sample)))
    {
      if challengers.Some? && index == |challengers.value| {
        return StopIteration;
      }
      if randomDesign.None? {
        Fetch();
        if index < |challengers.value| {
          d := Yield(challengers.value[index], None);
          index := index + 1;
        } else {
          d := IndexError;
        }
        return;
      }
      if randomDesign.value.Check(iteration) {
        d := Yield(sample, Some(RandomSearchOrigin));
      } else {
        Fetch();
        if index < |challengers.value| {
          d := Yield(challengers.value[index], None);
          index := index + 1;
        } else {
          return IndexError;
        }
      }
      iteration := iteration + 1;
    }

    /** `__len__`: the list items not yet returned, fetching the list if needed. */
    method Len() returns (n: int)
      requires Valid()
      modifies this`challengers, this`callbackCalls
      ensures Valid()
      ensures (State(), n) == Length(old(State()), callbackList)
    {
      Fetch();
      n := |challengers.value| - index;
    }
  }

  /** The configurations of `_maximize`'s (acquisition value, configuration) pairs, in order. */
  function ConfigsOf<C(==)>(ranked: seq<(real, C)>): (r: seq<C>)
    ensures |r| == |ranked| && forall i :: 0 <= i < |r| ==> r[i] == ranked[i].1
  {
    seq(|ranked|, i requires 0 <= i < |ranked| => ranked[i].1)
  }

  /** The number of points `maximize` asks `_maximize` for. */
  function NumPoints(numPoints: Option<int>, challengers: int): (n: int)
    ensures numPoints.Some? ==> n == numPoints.value
    ensures numPoints.None? ==> n == challengers
  {
    if numPoints.None? then challengers else numPoints.value
  }

  /** The acquisition optimizer, reduced to what `maximize` does around `_maximize`. */
  class AcquisitionOptimizer {
    /** The number of points asked for when `maximize` is given none. */
    const challengers: int

    constructor(challengers: int)
      ensures this.challengers == challengers
    {
      this.challengers := challengers;
    }

    /** The optimizer built without a `challengers` argument. */
    constructor Default()
      ensures challengers == DefaultChallengers
    {
      challengers := DefaultChallengers;
    }

    /** `maximize`: a fresh challenger list whose callback yields the configurations of
        `_maximize` (here `ranked`, from the number of points) for `num_points`, or for the
        optimizer's default when none is given; the random design, when given, is
        advanced exactly once. */
    method Maximize<C(==)>(numPoints: Option<int>, randomDesign: Option<RandomDesign>, ranked: int -> seq<(real, C)>)
      returns (list: ChallengerList<C>)
      modifies if randomDesign.Some? then {randomDesign.value} else {}
      ensures fresh(list) && list.Valid() && list.State() == Fresh() && list.randomDesign == randomDesign
      ensures list.callbackList == ConfigsOf(ranked(NumPoints(numPoints, challengers)))
      ensures randomDesign.Some? ==> randomDesign.value.progress == old(randomDesign.value.progress) + 1
    {
      list := new ChallengerList(ConfigsOf(ranked(NumPoints(numPoints, challengers))), randomDesign);
      if randomDesign.Some? {
        randomDesign.value.NextIteration();
      }
    }
  }
}
