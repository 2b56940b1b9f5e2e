// What each index of a batch goes through: its result is decided by the answers of limiter and
// broker while a worker held it, with every retry used before it is given up.
module PoolStories {
  import opened Seqs
  import opened Mapper
  import opened Pool

  /** How often each thing happened to one index. */
  datatype Story = Story(granted: nat, refused: nat, found: nat, vanished: nat, tries: nat, confirmed: nat,
                         acked: nat, ackErrors: nat, snaps: nat, logs: nat)

  const NOTHING := Story(0, 0, 0, 0, 0, 0, 0, 0, 0, 0)

  function And(t: Story, a: Action): Story {
    match a
    case Wait(_, true) => t.(granted := t.granted + 1)
    case Wait(_, false) => t.(refused := t.refused + 1)
    case Inspect(_, Some(_)) => t.(found := t.found + 1)
    case Inspect(_, None) => t.(vanished := t.vanished + 1)
    case Publish(_, confirmed, _) =>
      t.(tries := t.tries + 1, confirmed := t.confirmed + if confirmed then 1 else 0)
    case Ack(_, true, _) => t.(acked := t.acked + 1)
    case Ack(_, false, _) => t.(ackErrors := t.ackErrors + 1)
    case Snap(_) => t.(snaps := t.snaps + 1)
    case Log(_) => t.(logs := t.logs + 1)
    case _ => t
  }

  predicate Concerns(s: State, a: Action, i: nat) {
    Moves(a) && a.w < |s.pcs| && s.pcs[a.w].Busy() && s.pcs[a.w].i == i
  }

  /** The story of index `i` along a trace. */
  ghost function StoryOf(c: Config, s: State, trace: seq<Action>, i: nat): Story
    requires Run(c, s, trace).Some?
  {
    if trace == [] then NOTHING
    else
      var init, a := trace[..|trace| - 1], trace[|trace| - 1];
      var t := StoryOf(c, s, init, i);
      if Concerns(Run(c, s, init).value, a, i) then And(t, a) else t
  }

  /** The attempts a message gets. */
  function Attempts(c: Config): nat {
    if c.retries < 0 then 0 else c.retries + 1
  }

  /** Up to a confirmed publish. */
  predicate Published(c: Config, t: Story) {
    && t.granted == 1 && t.refused == 0 && t.found == 1 && t.vanished == 0
    && 1 <= t.tries <= Attempts(c) && t.confirmed == 1
  }

  /** Given up without one: no message, or no attempt confirmed. */
  predicate GivenUp(c: Config, t: Story) {
    && t.granted == 1 && t.refused == 0 && t.confirmed == 0 && t.acked == 0 && t.ackErrors == 0 && t.snaps == 0
    && ((t.found == 0 && t.vanished == 1 && t.tries == 0)
        || (t.found == 1 && t.vanished == 0 && t.tries == Attempts(c)))
  }

  /** What has happened when a result is known, apart from the audit entry. */
  predicate Leads(c: Config, t: Story, o: Outcome) {
    match o
    case Replayed => Published(c, t) && t.acked == 1 && t.ackErrors == 0 && t.snaps == 1
    case AckFailed => Published(c, t) && t.acked == 0 && t.ackErrors == 1 && t.snaps == 0
    case PublishFailed => GivenUp(c, t)
  }

  /** The whole story of a result: one audit entry, but none when the limiter refused. */
  predicate Ends(c: Config, t: Story, o: Outcome) {
    || (Leads(c, t, o) && t.logs == 1)
    || (o == PublishFailed && t == NOTHING.(refused := 1))
  }

  /** A worker's program counter tells the story of its index so far. */
  predicate Tells(c: Config, pc: Pc, t: Story) {
    match pc
    case Waiting(_) => t == NOTHING
    case Inspecting(_) => t == NOTHING.(granted := 1)
    case Publishing(_, _, n) => t == NOTHING.(granted := 1, found := 1, tries := n) && n < Attempts(c)
    case Acking(_, _) => Published(c, t) && t.acked == 0 && t.ackErrors == 0 && t.snaps == 0 && t.logs == 0
    case Snapshotting(_, _) => Published(c, t) && t.acked == 1 && t.ackErrors == 0 && t.snaps == 0 && t.logs == 0
    case Auditing(_, o, _) => Leads(c, t, o) && t.logs == 0
    case Recording(_, o) => Ends(c, t, o)
    case _ => true
  }

  /** Where index `i` is, and what its story must be there. */
  ghost predicate Consistent(c: Config, s: State, i: nat, t: Story)
    requires i < |s.results|
  {
    && (i >= Fed(c, s) ==> t == NOTHING)
    && (s.results[i].Some? ==> Ends(c, t, s.results[i].value))
    && forall w :: 0 <= w < |s.pcs| && s.pcs[w].Busy() && s.pcs[w].i == i ==> Tells(c, s.pcs[w], t)
  }

  lemma MovedTells(c: Config, s: State, a: Action, t: Story)
    requires Moves(a) && Enabled(c, s, a) && Tells(c, s.pcs[a.w], t)
    ensures Tells(c, Moved(c, s, a), And(t, a))
  {
    if a.Wait? || a.Inspect? {
      EarlyMovedTells(c, s, a, t);
    } else if a.Publish? {
      PublishedTells(c, s, a, t);
    }
  }

  lemma EarlyMovedTells(c: Config, s: State, a: Action, t: Story)
    requires (a.Wait? || a.Inspect?) && Enabled(c, s, a) && Tells(c, s.pcs[a.w], t)
    ensures Tells(c, Moved(c, s, a), And(t, a))
  {
  }

  lemma PublishedTells(c: Config, s: State, a: Action, t: Story)
    requires a.Publish? && Enabled(c, s, a) && Tells(c, s.pcs[a.w], t)
    ensures Tells(c, Moved(c, s, a), And(t, a))
  {
  }

  lemma MoveConsistent(c: Config, s: State, a: Action, i: nat, t: Story)
    requires Owned(c, s) && Moves(a) && Enabled(c, s, a) && i < |c.ids| && Consistent(c, s, i, t)
    ensures Consistent(c, Next(c, s, a), i, if Concerns(s, a, i) then And(t, a) else t)
  {
    MoveEffect(c, s, a);
    var u := Next(c, s, a);
    if Concerns(s, a, i) {
      MovedTells(c, s, a, t);
      assert forall w :: 0 <= w < |u.pcs| && w != a.w ==> u.pcs[w] == s.pcs[w];
    }
  }

  lemma StepConsistent(c: Config, s: State, a: Action, i: nat, t: Story)
    requires Owned(c, s) && Enabled(c, s, a) && i < |c.ids| && Consistent(c, s, i, t)
    ensures Consistent(c, Next(c, s, a), i, if Concerns(s, a, i) then And(t, a) else t)
  {
    var u := Next(c, s, a);
    if Moves(a) {
      MoveConsistent(c, s, a, i, t);
    } else if a.Feed? {
      assert forall w :: 0 <= w < |s.pcs| && w != a.w ==> u.pcs[w] == s.pcs[w];
    } else if a.Record? {
      assert forall w :: 0 <= w < |s.pcs| && w != a.w ==> u.pcs[w] == s.pcs[w];
    } else if a.Exit? {
      assert forall w :: 0 <= w < |s.pcs| && w != a.w ==> u.pcs[w] == s.pcs[w];
    }
  }

  lemma {:induction false} RunConsistent(c: Config, world: World, trace: seq<Action>, i: nat)
    requires Run(c, Start(c, world), trace).Some? && i < |c.ids|
    ensures var s := Run(c, Start(c, world), trace).value;
            Owned(c, s) && Consistent(c, s, i, StoryOf(c, Start(c, world), trace, i))
  {
    StartInv(c, world);
    if trace != [] {
      var init, a := trace[..|trace| - 1], trace[|trace| - 1];
      RunConsistent(c, world, init, i);
      StepOwned(c, Run(c, Start(c, world), init).value, a);
      StepConsistent(c, Run(c, Start(c, world), init).value, a, i, StoryOf(c, Start(c, world), init, i));
    }
  }

  /** The result of an index is what happened to it: replayed when the publish was confirmed and the
      ack answered, with its snapshot taken; an ack failure when the ack errored; and a publish
      failure when the limiter refused, the message was gone, or every attempt failed, none spared.
      Nothing is published again once it is confirmed. */
  lemma {:induction false} ResultsTellTheStory(c: Config, world: World, trace: seq<Action>, i: nat)
    requires Run(c, Start(c, world), trace).Some? && i < |c.ids|
    ensures var s, t := Run(c, Start(c, world), trace).value, StoryOf(c, Start(c, world), trace, i);
            i < |s.results| && (s.results[i].Some? ==>
              && Ends(c, t, s.results[i].value)
              && (s.results[i] == Some(Replayed) <==> t.acked == 1)
              && (s.results[i] == Some(AckFailed) <==> t.ackErrors == 1)
              && (t.confirmed == 0 && t.found == 1 ==> t.tries == Attempts(c)))
  {
    RunConsistent(c, world, trace, i);
    var s := Run(c, Start(c, world), trace).value;
    if s.results[i].Some? {
      EndsOneWay(c, StoryOf(c, Start(c, world), trace, i), s.results[i].value);
    }
  }

  lemma EndsOneWay(c: Config, t: Story, o: Outcome)
    requires Ends(c, t, o)
    ensures (o == Replayed <==> t.acked == 1) && (o == AckFailed <==> t.ackErrors == 1)
    ensures t.confirmed == 0 && t.found == 1 ==> t.tries == Attempts(c)
  {
  }
}
