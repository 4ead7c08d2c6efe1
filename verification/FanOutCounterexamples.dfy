/**
 Runs of a fan-out over one child that show why its results need their conditions: what retention can take
 away from a fan-out that outlives its children, and what a child that swallows an error leaves behind.
 */
module FanOutCounterexamples {
  import opened Options
  import opened Storage
  import opened Workflows
  import opened Keys
  import opened Accounts
  import opened Protocol
  import opened Replay
  import opened FanOut
  import opened FanOutReplay

  // ---- Building blocks -------------------------------------------------------------------------

  function Single(kid: Workflow): Op { Op.FanOut("f", "()", false, None, [kid]) }

  function Kid(i: Id): Id { Child(i, "f", 0) }

  function StepRef(i: Id): Ref { Ref(Kid(i), User("s")) }

  ghost function One(b: Book, x: Node): Config { Config(b, [x], map[]) }

  const EMPTY_BOOK := Book(map[], map[], {}, {})

  /** From `c` these events lead to `c'`. */
  ghost predicate Leads(i: Id, kid: Workflow, c: Config, events: seq<Event>, c': Config) {
    Play(i, Single(kid), c, events) == Some(c')
  }

  lemma LeadsNext(i: Id, kid: Workflow, c: Config, events: seq<Event>, c1: Config, e: Event, c2: Config)
    requires Leads(i, kid, c, events, c1) && CanHappen(i, Single(kid), c1, e) && Happen(i, Single(kid), c1, e) == c2
    ensures Leads(i, kid, c, events + [e], c2)
  {
    assert (events + [e])[..|events|] == events;
  }

  /** The child makes a step. */
  lemma KidMoves(i: Id, kid: Workflow, c: Config, events: seq<Event>, b: Book, x: Node, choice: Choice)
    returns (events': seq<Event>)
    requires Leads(i, kid, c, events, One(b, x))
    requires CanStep(b.steps, Kid(i), kid, x, choice) && (choice.Acquire? ==> x.Idle?)
    requires var w := WriteOf(b.steps, Kid(i), kid, x, choice); !(w.Journals? && w.op.FanOut?)
    ensures events' == events + [Moves(0, choice)]
    ensures
      var w := WriteOf(b.steps, Kid(i), kid, x, choice);
      Leads(i, kid, c, events', One(ApplyToBook(b, w), StepNode(b.steps, Kid(i), kid, x, choice)))
  {
    assert [x][..0] == [];
    assert Holders([x]) == if HoldsPermit(x) then 1 else 0;
    var w := WriteOf(b.steps, Kid(i), kid, x, choice);
    events' := events + [Moves(0, choice)];
    LeadsNext(i, kid, c, events, One(b, x), Moves(0, choice),
      One(ApplyToBook(b, w), StepNode(b.steps, Kid(i), kid, x, choice)));
  }

  /** The child runs the step "s" first. */
  ghost predicate BeginsWithStep(kid: Workflow) { kid([]) == Step("s", "()", 0) }

  ghost function Started(i: Id, b: Book): Book { b.(meta := b.meta[Kid(i) := Metadata(Running, None)]) }

  /** The child starts, and comes to its step. */
  lemma Starts(i: Id, kid: Workflow, c: Config, events: seq<Event>, b: Book) returns (events': seq<Event>)
    requires BeginsWithStep(kid) && StepRef(i) !in b.steps && Leads(i, kid, c, events, One(b, Idle))
    ensures events <= events' && forall e :: e in events'[|events|..] ==> e.Moves?
    ensures Leads(i, kid, c, events', One(Started(i, b), Busy(InClosure([], 0), [])))
  {
    events' := KidMoves(i, kid, c, events, b, Idle, Acquire);
    events' := KidMoves(i, kid, c, events', b, Entered, Enter);
    assert ApplyToBook(b, Records(Kid(i), Metadata(Running, None))) == Started(i, b);
    events' := KidMoves(i, kid, c, events', Started(i, b), Busy(At([]), []), Choice.Perform);
  }

  /** The outcome `o` of the step is journaled as `d`, and the child is given `seen`. */
  ghost predicate ComesBack(o: Outcome, d: StepData, seen: Seen) {
    (o.Okay? ==> o.value.ty == "()") && ClosurePc([], 0, 0, None, o) == Saving([], d, seen)
  }

  /** The tables when the step of the child is journaled, when its output is, and when it has finished at time 0. */
  ghost function Journaled(i: Id, d: StepData): Book {
    Book(map[StepRef(i) := d], map[Kid(i) := Metadata(Running, None)], {}, InEntry(StepRef(i), d))
  }

  ghost function Delivered(i: Id, d: StepData): Book {
    Journaled(i, d).(steps := map[StepRef(i) := d, Ref(Kid(i), Output) := Completed(UNIT, None)])
  }

  ghost function Finished(i: Id, d: StepData): Book {
    Delivered(i, d).(meta := map[Kid(i) := NewMetadata(MetadataStatus.Finished(None), 0)])
  }

  /** The step comes back and is journaled. */
  lemma Journals(i: Id, kid: Workflow, o: Outcome, d: StepData, seen: Seen) returns (events: seq<Event>)
    requires BeginsWithStep(kid) && ComesBack(o, d, seen)
    ensures forall e :: e in events ==> e.Moves?
    ensures Leads(i, kid, Fresh(map[], map[], Single(kid)), events, One(Journaled(i, d), Busy(At([seen]), [])))
  {
    var b, c0 := Started(i, EMPTY_BOOK), Fresh(map[], map[], Single(kid));
    assert Idles(1) == [Idle];
    assert Leads(i, kid, c0, [], One(EMPTY_BOOK, Idle));
    events := Starts(i, kid, c0, [], EMPTY_BOOK);
    events := KidMoves(i, kid, c0, events, b, Busy(InClosure([], 0), []), Choice.ClosureReturn(o, None));
    events := KidMoves(i, kid, c0, events, b, Busy(Saving([], d, seen), []), Choice.Save);
    assert ApplyToBook(b, Write.Journals(StepRef(i), d, kid([]))) == Journaled(i, d);
    assert [] + [seen] == [seen];
  }

  /** After what the step gave, the child writes unit for its output. */
  lemma Outputs(i: Id, kid: Workflow, o: Outcome, d: StepData, seen: Seen) returns (events: seq<Event>)
    requires BeginsWithStep(kid) && ComesBack(o, d, seen) && kid([seen]) == Return(UNIT)
    ensures forall e :: e in events ==> e.Moves?
    ensures
      Leads(i, kid, Fresh(map[], map[], Single(kid)), events,
        One(Delivered(i, d), Busy(Finishing([seen], Success), [])))
  {
    var b, h, c0 := Journaled(i, d), [seen], Fresh(map[], map[], Single(kid));
    events := Journals(i, kid, o, d, seen);
    events := KidMoves(i, kid, c0, events, b, Busy(At(h), []), Choice.Perform);
    events := KidMoves(i, kid, c0, events, b, Busy(Outputting(h), []), Choice.WriteOutput);
    assert ApplyToBook(b, Write.Journals(Ref(Kid(i), Output), Completed(UNIT, None), kid(h))) == Delivered(i, d);
  }

  /** After what the step gave, the child returns unit. */
  lemma Finishes(i: Id, kid: Workflow, o: Outcome, d: StepData, seen: Seen) returns (events: seq<Event>)
    requires BeginsWithStep(kid) && ComesBack(o, d, seen) && kid([seen]) == Return(UNIT)
    ensures forall e :: e in events ==> e.Moves?
    ensures
      Leads(i, kid, Fresh(map[], map[], Single(kid)), events, One(Finished(i, d), Node.Done([seen], Success)))
  {
    var m := NewMetadata(MetadataStatus.Finished(None), 0);
    events := Outputs(i, kid, o, d, seen);
    events := KidMoves(i, kid, Fresh(map[], map[], Single(kid)), events, Delivered(i, d),
      Busy(Finishing([seen], Success), []), Choice.WriteResult(None, 0));
    assert ApplyToBook(Delivered(i, d), Records(Kid(i), m)) == Finished(i, d);
  }

  // ---- Retention -------------------------------------------------------------------------------

  /** One step; errors are passed on. */
  function OneStep(h: History): Op {
    if !NoErrors(h) then Throw("e") else if |h| == 0 then Step("s", "()", 0) else Return(UNIT)
  }

  const WORKED := Completed(UNIT, None)

  const RETURNS := Choice.ClosureReturn(Okay(UNIT), None)

  ghost function Expired(i: Id): Config { One(EMPTY_BOOK.(gone := {Kid(i)}), Node.Done([Got(UNIT)], Success)) }

  lemma KidExpires(i: Id)
    ensures
      var c := One(Finished(i, WORKED), Node.Done([Got(UNIT)], Success));
      CanHappen(i, Single(OneStep), c, Expires(Kid(i))) && Happen(i, Single(OneStep), c, Expires(Kid(i))) == Expired(i)
  {
    assert Under(Kid(i), Child(i, Single(OneStep).key, 0));
    var s := DeleteTxn(Store(Finished(i, WORKED).steps, Finished(i, WORKED).meta, map[]), Kid(i));
    assert s.steps == map[] && s.meta == map[];
  }

  lemma NothingDenoted(j: Steps, c: Id, kid: Workflow)
    requires BeginsWithStep(kid) && Fed(j, c, kid([])).None?
    ensures Denote(j, c, kid) == NotDone && Opens(j, c, kid)
  {
    assert OpenAt(j, c, kid, []);
    OpenMeansNothing(j, c, kid);
  }

  /**
   When retention deletes a finished child before its parent has collected, the parent still returns a
   successful slot, but under the journal that is left the child denotes nothing.
   */
  lemma ExpiredSlotDenotesNothing(i: Id) returns (events: seq<Event>)
    ensures Propagates(OneStep)
    ensures
      var end := Play(i, Single(OneStep), Fresh(map[], map[], Single(OneStep)), events);
      && end.Some? && CanCollect(Single(OneStep), end.value.nodes)
      && SlotsOf(i, Single(OneStep), end.value.nodes)[0] == Won(UNIT)
      && Denote(end.value.book.steps, Kid(i), OneStep) == NotDone
  {
    events := FinishesAndExpires(i);
    NothingDenoted(map[], Kid(i), OneStep);
  }

  lemma FinishesAndExpires(i: Id) returns (events: seq<Event>)
    ensures Leads(i, OneStep, Fresh(map[], map[], Single(OneStep)), events, Expired(i))
  {
    events := Finishes(i, OneStep, Okay(UNIT), WORKED, Got(UNIT));
    KidExpires(i);
    LeadsNext(i, OneStep, Fresh(map[], map[], Single(OneStep)), events,
      One(Finished(i, WORKED), Node.Done([Got(UNIT)], Success)), Expires(Kid(i)), Expired(i));
    events := events + [Expires(Kid(i))];
  }

  /**
   And when the parent is interrupted after that, it runs the child's step again, although the step
   was Completed once and no child had failed.
   */
  lemma ExpiredChildRunsAgain(i: Id) returns (before: seq<Event>, more: seq<Event>)
    ensures
      var c := Play(i, Single(OneStep), Fresh(map[], map[], Single(OneStep)), before);
      && c.Some? && IsCompleted(c.value.book.steps, StepRef(i))
      && var end := Play(i, Single(OneStep), c.value, more);
         && end.Some? && CanStepInside(end.value.book.steps, i, Single(OneStep), end.value.nodes, 0, RETURNS)
         && Touched(Kid(i), OneStep, end.value.nodes[0], RETURNS) == Some(StepRef(i))
  {
    before := Finishes(i, OneStep, Okay(UNIT), WORKED, Got(UNIT));
    var c := One(Finished(i, WORKED), Node.Done([Got(UNIT)], Success));
    more := ExpiresAndStops(i);
    more := Starts(i, OneStep, c, more, EMPTY_BOOK.(gone := {Kid(i)}));
    ReturnsAgain(i);
  }

  /** The finished child is deleted, and the parent interrupted. */
  lemma ExpiresAndStops(i: Id) returns (events: seq<Event>)
    ensures
      Leads(i, OneStep, One(Finished(i, WORKED), Node.Done([Got(UNIT)], Success)), events,
        One(EMPTY_BOOK.(gone := {Kid(i)}), Idle))
  {
    var c := One(Finished(i, WORKED), Node.Done([Got(UNIT)], Success));
    KidExpires(i);
    assert Leads(i, OneStep, c, [], c);
    LeadsNext(i, OneStep, c, [], c, Expires(Kid(i)), Expired(i));
    assert Idles(1) == [Idle];
    events := [] + [Expires(Kid(i))];
    LeadsNext(i, OneStep, c, events, Expired(i), Interrupted, One(EMPTY_BOOK.(gone := {Kid(i)}), Idle));
    events := events + [Interrupted];
  }

  lemma ReturnsAgain(i: Id)
    ensures
      var x := Busy(InClosure([], 0), []);
      && CanStepInside(map[], i, Single(OneStep), [x], 0, RETURNS)
      && Touched(Kid(i), OneStep, x, RETURNS) == Some(StepRef(i))
  {
  }

  // ---- A child that swallows an error ----------------------------------------------------------

  /** Run one step; return unit whether or not it worked. */
  function Swallows(h: History): Op {
    if |h| == 0 then Step("s", "()", 0) else Return(UNIT)
  }

  /**
   A successful slot need not hold what its child denotes, even if retention deletes nothing: the step of this
   child fails and the child returns all the same, but fed from the journal it comes to an open entry.
   */
  lemma SwallowedSlotDenotesNothing(i: Id) returns (events: seq<Event>)
    ensures KeysOnce(Swallows) && !DeletedIn(events, Kid(i))
    ensures
      var end := Play(i, Single(Swallows), Fresh(map[], map[], Single(Swallows)), events);
      && end.Some? && CanCollect(Single(Swallows), end.value.nodes)
      && SlotsOf(i, Single(Swallows), end.value.nodes)[0] == Won(UNIT)
      && Denote(end.value.book.steps, Kid(i), Swallows) == NotDone
      && Opens(end.value.book.steps, Kid(i), Swallows)
  {
    events := Finishes(i, Swallows, Permanent("e"), Failed("e"), Caught("e"));
    NothingDenoted(Finished(i, Failed("e")).steps, Kid(i), Swallows);
  }
}
