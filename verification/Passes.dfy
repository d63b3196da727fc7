/**
 Interleaved delivery passes: the loop of `_deliver_available` (`endpoint/server_core.py`, lines 288-294) awaits
 after every send, so passes of many sessions and any other statements may run between two of its rounds.
 */
module Passes {
  import opened Wrappers
  import opened IsoTime
  import opened MessageQueue
  import QueueRuns
  import CodePoints

  /** A running pass: the ids it listed at its start, how many it has tried, and the ones it sent. */
  datatype Sweep = Sweep(client: string, ids: seq<string>, tried: nat, sent: seq<string>)

  datatype State<+E> = State(rows: Table<E>, passes: seq<Sweep>)

  datatype Turn<+E> =
    | Start(client: string, now: nat)
    /** One round of a pass. */
    | Round(pass: nat, seconds: nat, now: nat, again: nat)
    /** Any statement of any other handler. */
    | Other(op: Op<E>)

  predicate CanTry<E>(s: State<E>, turn: Turn<E>) {
    turn.Round? && turn.pass < |s.passes| && s.passes[turn.pass].tried < |s.passes[turn.pass].ids|
  }

  /** The id that a round tries. */
  function Tried<E>(s: State<E>, turn: Turn<E>): string
    requires CanTry(s, turn)
  {
    s.passes[turn.pass].ids[s.passes[turn.pass].tried]
  }

  /** The statement that a turn runs, if any. */
  function StatementOf<E>(s: State<E>, turn: Turn<E>): Option<Op<E>> {
    match turn
    case Start(client, now) => Some(Requeue(client, now))
    case Round(pass, seconds, now, again) =>
      if CanTry(s, turn) then Some(Lease(s.passes[pass].client, Tried(s, turn), seconds, now, again)) else None
    case Other(op) => Some(op)
  }

  function Next<E>(quarantine: bool, s: State<E>, turn: Turn<E>): State<E> {
    var op := StatementOf(s, turn);
    if op.None? then s
    else
      var (rows, ok) := Step(quarantine, s.rows, op.value);
      match turn
      case Start(client, _) => State(rows, s.passes + [Sweep(client, Listed(rows, client), 0, [])])
      case Round(pass, _, _, _) =>
        var p := s.passes[pass];
        State(rows, s.passes[pass := p.(tried := p.tried + 1, sent := if ok then p.sent + [Tried(s, turn)] else p.sent)])
      case Other(_) => State(rows, s.passes)
  }

  function Run<E>(quarantine: bool, s: State<E>, turns: seq<Turn<E>>): State<E> {
    if turns == [] then s else Next(quarantine, Run(quarantine, s, turns[..|turns| - 1]), turns[|turns| - 1])
  }

  // ----- each pass keeps its order -----

  /** `xs` is `ys` with some elements left out. */
  predicate Within(xs: seq<string>, ys: seq<string>) {
    xs == [] ||
    (ys != [] &&
     (Within(xs, ys[..|ys| - 1]) || (xs[|xs| - 1] == ys[|ys| - 1] && Within(xs[..|xs| - 1], ys[..|ys| - 1]))))
  }

  ghost predicate PassLaw(p: Sweep) {
    && p.tried <= |p.ids| && Within(p.sent, p.ids[..p.tried])
    && forall i, j | 0 <= i < j < |p.ids| :: p.ids[i] != p.ids[j]
  }

  ghost predicate Inv<E>(s: State<E>) {
    forall i | 0 <= i < |s.passes| :: PassLaw(s.passes[i])
  }

  lemma Skips(xs: seq<string>, ys: seq<string>, n: nat)
    requires n < |ys| && Within(xs, ys[..n])
    ensures Within(xs, ys[..n + 1]) && Within(xs + [ys[n]], ys[..n + 1])
  {
    assert ys[..n + 1][..n] == ys[..n];
    assert (xs + [ys[n]])[..|xs|] == xs;
  }

  lemma ListedDistinct<E>(t: Table<E>, client: string)
    ensures var ids := Listed(t, client); forall i, j | 0 <= i < j < |ids| :: ids[i] != ids[j]
  {
    var ids := Listed(t, client);
    forall i, j | 0 <= i < j < |ids| ensures ids[i] != ids[j] {
      CodePoints.PairIrreflexive((t[(client, ids[i])].createdAt, ids[i]));
    }
  }

  lemma NextKeepsInv<E>(quarantine: bool, s: State<E>, turn: Turn<E>)
    requires Inv(s)
    ensures Inv(Next(quarantine, s, turn))
  {
    hide Step, Listed, Within;
    match turn
    case Start(client, now) =>
      var rows := Step(quarantine, s.rows, Requeue(client, now)).0;
      ListedDistinct(rows, client);
      assert Listed(rows, client)[..0] == [];
      NothingWithin([]);
    case Round(pass, _, _, _) =>
      if CanTry(s, turn) {
        var p := s.passes[pass];
        assert PassLaw(p);
        Skips(p.sent, p.ids, p.tried);
      }
    case Other(_) =>
  }

  lemma NothingWithin(ys: seq<string>)
    ensures Within([], ys)
  {
  }

  /**
   In every interleaving each pass sends a subsequence of what it listed at its start, in that order, and
   so no row twice.
   */
  lemma {:induction false} PassesKeepOrder<E>(quarantine: bool, rows: Table<E>, turns: seq<Turn<E>>)
    ensures Inv(Run(quarantine, State(rows, []), turns))
  {
    if turns != [] {
      PassesKeepOrder(quarantine, rows, turns[..|turns| - 1]);
      NextKeepsInv(quarantine, Run(quarantine, State(rows, []), turns[..|turns| - 1]), turns[|turns| - 1]);
    }
  }

  lemma {:induction false} WithinDistinct(xs: seq<string>, ys: seq<string>)
    requires Within(xs, ys) && forall i, j | 0 <= i < j < |ys| :: ys[i] != ys[j]
    ensures (forall x | x in xs :: x in ys) && forall i, j | 0 <= i < j < |xs| :: xs[i] != xs[j]
    decreases |ys|
  {
    if xs != [] {
      var init, last := ys[..|ys| - 1], ys[|ys| - 1];
      if Within(xs, init) {
        WithinDistinct(xs, init);
      } else {
        WithinDistinct(xs[..|xs| - 1], init);
        assert last !in init;
        assert xs == xs[..|xs| - 1] + [last];
      }
    }
  }

  // ----- two passes and one row -----

  /** The statements of a run. */
  function Statements<E>(quarantine: bool, s: State<E>, turns: seq<Turn<E>>): seq<Op<E>> {
    if turns == [] then []
    else
      var start := turns[..|turns| - 1];
      var op := StatementOf(Run(quarantine, s, start), turns[|turns| - 1]);
      Statements(quarantine, s, start) + if op.Some? then [op.value] else []
  }

  lemma {:induction false} RowsFollowStatements<E>(quarantine: bool, s: State<E>, turns: seq<Turn<E>>)
    ensures Run(quarantine, s, turns).rows == QueueRuns.Run(quarantine, s.rows, Statements(quarantine, s, turns))
    decreases |turns|
  {
    if turns != [] {
      var start, last := turns[..|turns| - 1], turns[|turns| - 1];
      RowsFollowStatements(quarantine, s, start);
      var before, ops := Run(quarantine, s, start), Statements(quarantine, s, start);
      var op := StatementOf(before, last);
      assert Run(quarantine, s, turns) == Next(quarantine, before, last);
      assert Statements(quarantine, s, turns) == ops + if op.Some? then [op.value] else [];
      hide Run, Statements;
      NextRows(quarantine, before, last);
      OneStatement(quarantine, s.rows, ops, op);
      hide Next, StatementOf, Step;
    }
  }

  lemma NextRows<E>(quarantine: bool, s: State<E>, turn: Turn<E>)
    ensures var op := StatementOf(s, turn);
            Next(quarantine, s, turn).rows == if op.Some? then Step(quarantine, s.rows, op.value).0 else s.rows
  {
    hide Step, StatementOf, Listed;
  }

  lemma OneStatement<E>(quarantine: bool, rows: Table<E>, ops: seq<Op<E>>, op: Option<Op<E>>)
    ensures var after := QueueRuns.Run(quarantine, rows, ops);
            QueueRuns.Run(quarantine, rows, ops + if op.Some? then [op.value] else []) ==
            if op.Some? then Step(quarantine, after, op.value).0 else after
  {
    hide Step;
    if op.Some? {
      assert (ops + [op.value])[..|ops|] == ops;
    } else {
      assert ops + [] == ops;
    }
  }

  /** A turn that reads no clock later than `now` and neither acks nor rejects `key`. */
  predicate Harmless<E>(turn: Turn<E>, key: Key, now: nat) {
    match turn
    case Start(_, t) => t <= now
    case Round(_, _, t, _) => t <= now
    case Other(op) => QueueRuns.Clock(op) <= now && !((op.Ack? || op.Reject?) && QueueRuns.KeyOf(op) == Some(key))
  }

  lemma {:induction false} StatementsHarmless<E>(quarantine: bool, s: State<E>, turns: seq<Turn<E>>, key: Key, now: nat)
    requires forall i | 0 <= i < |turns| :: Harmless(turns[i], key, now)
    ensures forall i | 0 <= i < |Statements(quarantine, s, turns)| ::
              var op := Statements(quarantine, s, turns)[i];
              QueueRuns.Clock(op) <= now && !((op.Ack? || op.Reject?) && QueueRuns.KeyOf(op) == Some(key))
  {
    if turns != [] {
      StatementsHarmless(quarantine, s, turns[..|turns| - 1], key, now);
      assert Harmless(turns[|turns| - 1], key, now);
      hide Next;
    }
  }

  predicate Sends<E>(quarantine: bool, s: State<E>, turn: Turn<E>) {
    CanTry(s, turn) && Step(quarantine, s.rows, StatementOf(s, turn).value).1
  }

  /**
   Two rounds, of two passes or of one, that send the same row with nobody having acked or rejected it in between:
   the second comes after the first lease has lapsed.
   */
  lemma NeverBothSend<E>(quarantine: bool, s: State<E>, first: Turn<E>, between: seq<Turn<E>>, second: Turn<E>)
    requires Sends(quarantine, s, first) && QueueRuns.InRange(first.again + first.seconds * MICROSECONDS)
    requires var later := Run(quarantine, Next(quarantine, s, first), between);
             && Sends(quarantine, later, second)
             && later.passes[second.pass].client == s.passes[first.pass].client && Tried(later, second) == Tried(s, first)
    requires forall i | 0 <= i < |between| :: Harmless(between[i], (s.passes[first.pass].client, Tried(s, first)), second.now)
    ensures second.now >= QueueRuns.ExpirySecond(first.again, first.seconds) * MICROSECONDS
  {
    var key := (s.passes[first.pass].client, Tried(s, first));
    var s' := Next(quarantine, s, first);
    RowsFollowStatements(quarantine, s', between);
    StatementsHarmless(quarantine, s', between, key, second.now);
    hide Step, Run, QueueRuns.Run, Statements, Harmless;
    QueueRuns.LeasesStandApart(quarantine, s.rows, StatementOf(s, first).value, Statements(quarantine, s', between),
                               StatementOf(Run(quarantine, s', between), second).value);
  }
}
