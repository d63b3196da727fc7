/** What every run of mailbox statements keeps: conservation, row laws and the lease window. */
module QueueRuns {
  import opened Wrappers
  import opened IsoTime
  import opened MessageQueue

  function Run<E>(quarantine: bool, t: Table<E>, ops: seq<Op<E>>): Table<E> {
    if ops == [] then t else Step(quarantine, Run(quarantine, t, ops[..|ops| - 1]), ops[|ops| - 1]).0
  }

  function KeyOf<E>(op: Op<E>): Option<Key> {
    match op
    case Requeue(_, _) => None
    case _ => Some((op.client, op.id))
  }

  // ----- conservation -----

  type Scope = Key -> bool

  datatype Tally = Tally(adds: nat, acks: nat, rejects: nat)

  /** Successful adds, acks and rejects of the keys in `scope`, over a run from the empty table. */
  function Count<E>(quarantine: bool, ops: seq<Op<E>>, scope: Scope): Tally {
    if ops == [] then Tally(0, 0, 0)
    else
      var op := ops[|ops| - 1];
      var before := Count(quarantine, ops[..|ops| - 1], scope);
      if !Step(quarantine, Run(quarantine, map[], ops[..|ops| - 1]), op).1 then before
      else
        match op
        case Add(c, m, _, _) => if scope((c, m)) then before.(adds := before.adds + 1) else before
        case Ack(c, m) => if scope((c, m)) then before.(acks := before.acks + 1) else before
        case Reject(c, m, _, _) => if scope((c, m)) then before.(rejects := before.rejects + 1) else before
        case _ => before
  }

  ghost function ActiveIn<E>(t: Table<E>, scope: Scope): set<Key> {
    set key | key in t && scope(key) && Active(t[key])
  }

  lemma ActiveAfter<E>(quarantine: bool, t: Table<E>, op: Op<E>, scope: Scope)
    ensures var (t', ok) := Step(quarantine, t, op);
            var before, after := ActiveIn(t, scope), ActiveIn(t', scope);
            match op
            case Add(c, m, _, _) =>
              if ok && scope((c, m)) then (c, m) !in before && after == before + {(c, m)} else after == before
            case Ack(c, m) =>
              if ok && scope((c, m)) then (c, m) in before && after == before - {(c, m)} else after == before
            case Reject(c, m, _, _) =>
              if ok && scope((c, m)) then (c, m) in before && after == before - {(c, m)} else after == before
            case _ => after == before
  {
    hide NowIso, ExpiryText;
  }

  /** Every successful add is accounted for by an active row, a successful ack or a successful reject. */
  lemma {:induction false} Conservation<E>(quarantine: bool, ops: seq<Op<E>>, scope: Scope)
    ensures var tally := Count(quarantine, ops, scope);
            tally.adds == |ActiveIn(Run(quarantine, map[], ops), scope)| + tally.acks + tally.rejects
  {
    if ops == [] {
      assert ActiveIn(Run(quarantine, map[], ops), scope) == {};
    } else {
      var start := ops[..|ops| - 1];
      Conservation(quarantine, start, scope);
      ActiveAfter(quarantine, Run(quarantine, map[], start), ops[|ops| - 1], scope);
    }
  }

  lemma ClientConservation<E>(quarantine: bool, ops: seq<Op<E>>, client: string)
    ensures var tally := Count(quarantine, ops, (key: Key) => key.0 == client);
            tally.adds == |ActiveKeys(Run(quarantine, map[], ops), client)| + tally.acks + tally.rejects
  {
    var scope: Scope := (key: Key) => key.0 == client;
    Conservation(quarantine, ops, scope);
    assert ActiveIn(Run(quarantine, map[], ops), scope) == ActiveKeys(Run(quarantine, map[], ops), client);
  }

  lemma ActiveAtKey<E>(t: Table<E>, key: Key)
    ensures ActiveIn(t, (k: Key) => k == key) == if key in t && Active(t[key]) then {key} else {}
  {
  }

  /** A key added at most once is acked or rejected at most once, never both. */
  lemma SettledOnce<E>(quarantine: bool, ops: seq<Op<E>>, key: Key)
    ensures var tally := Count(quarantine, ops, (k: Key) => k == key);
            && tally.acks + tally.rejects <= tally.adds
            && (key in Run(quarantine, map[], ops) && Active(Run(quarantine, map[], ops)[key])
                ==> tally.acks + tally.rejects + 1 == tally.adds)
  {
    var scope: Scope := (k: Key) => k == key;
    Conservation(quarantine, ops, scope);
    ActiveAtKey(Run(quarantine, map[], ops), key);
  }

  // ----- rows -----

  /** The successful leases of a key since its row was inserted. */
  function Leases<E>(quarantine: bool, ops: seq<Op<E>>, key: Key): nat {
    if ops == [] then 0
    else
      var op := ops[|ops| - 1];
      var before := Leases(quarantine, ops[..|ops| - 1], key);
      if KeyOf(op) != Some(key) || !Step(quarantine, Run(quarantine, map[], ops[..|ops| - 1]), op).1 then before
      else if op.Add? then 0
      else if op.Lease? then before + 1
      else before
  }

  predicate RowLaw<E>(quarantine: bool, row: Row<E>) {
    && (row.state.Leased? <==> row.leaseExpiresAt.Some?)
    && (row.state.Rejected? <==> row.rejectReason.Some?)
    && (row.state.Rejected? ==> quarantine)
    && (row.lastAttemptAt.Some? <==> row.attempts > 0)
  }

  /** How one statement moves one key: laws, attempts, and rows it must leave alone. */
  lemma RowStep<E>(quarantine: bool, t: Table<E>, op: Op<E>, key: Key)
    requires key in t ==> RowLaw(quarantine, t[key])
    ensures var (t', ok) := Step(quarantine, t, op);
            var hit := ok && KeyOf(op) == Some(key);
            && (key in t' ==> RowLaw(quarantine, t'[key]))
            && (key in t' && hit && op.Add? ==> t'[key].attempts == 0)
            && (key in t' && !(hit && op.Add?) ==>
                  key in t && t'[key].attempts == t[key].attempts + if hit && op.Lease? then 1 else 0)
  {
  }

  lemma {:induction false} RowLaws<E>(quarantine: bool, ops: seq<Op<E>>, key: Key)
    requires key in Run(quarantine, map[], ops)
    ensures var row := Run(quarantine, map[], ops)[key];
            RowLaw(quarantine, row) && row.attempts == Leases(quarantine, ops, key)
  {
    if ops != [] {
      var start := ops[..|ops| - 1];
      if key in Run(quarantine, map[], start) {
        RowLaws(quarantine, start, key);
      }
      RowStep(quarantine, Run(quarantine, map[], start), ops[|ops| - 1], key);
    }
  }

  lemma RejectedStep<E>(quarantine: bool, t: Table<E>, op: Op<E>, key: Key)
    requires key in t && t[key].state.Rejected?
    ensures var t' := Step(quarantine, t, op).0; key in t' && t'[key] == t[key]
  {
  }

  /** `rejected` is terminal: no statement ever touches such a row again. */
  lemma {:induction false} RejectedIsTerminal<E>(quarantine: bool, t: Table<E>, ops: seq<Op<E>>, key: Key)
    requires key in t && t[key].state.Rejected?
    ensures key in Run(quarantine, t, ops) && Run(quarantine, t, ops)[key] == t[key]
  {
    if ops != [] {
      RejectedIsTerminal(quarantine, t, ops[..|ops| - 1], key);
      RejectedStep(quarantine, Run(quarantine, t, ops[..|ops| - 1]), ops[|ops| - 1], key);
    }
  }

  // ----- the lease window -----

  /** The latest clock reading a statement takes. */
  function Clock<E>(op: Op<E>): nat {
    match op
    case Ack(_, _) => 0
    case _ => op.now
  }

  /** The whole second at which a lease of `seconds` taken at clock reading `again` lapses. */
  function ExpirySecond(again: nat, seconds: nat): nat {
    (again + seconds * MICROSECONDS) / MICROSECONDS
  }

  predicate InRange(micros: nat) {
    micros / MICROSECONDS < END_OF_TIME
  }

  /** Whether a leased row has lapsed is decided by whole seconds. */
  lemma LapsesAt<E>(row: Row<E>, expiry: nat, now: nat)
    requires row.state.Leased? && row.leaseExpiresAt == Some(Iso(expiry))
    requires expiry < END_OF_TIME && InRange(now)
    ensures Lapsed(row, NowIso(now)) <==> expiry <= now / MICROSECONDS
  {
    IsoOrder(expiry, now / MICROSECONDS);
  }

  /** A leased row that has not lapsed moves for nothing but its own ack or reject. */
  lemma UnlapsedStep<E>(quarantine: bool, t: Table<E>, op: Op<E>, key: Key)
    requires key in t && t[key].state.Leased? && (op.Ack? || !Lapsed(t[key], NowIso(Clock(op))))
    requires !((op.Ack? || op.Reject?) && KeyOf(op) == Some(key))
    ensures var (t', ok) := Step(quarantine, t, op);
            key in t' && t'[key] == t[key] && (op.Lease? && KeyOf(op) == Some(key) ==> !ok)
  {
    hide NowIso, ExpiryText, LeasedRow, NewRow, Quarantined, Lapsed;
  }

  lemma LiveLeaseStep<E>(quarantine: bool, t: Table<E>, op: Op<E>, key: Key, expiry: nat)
    requires key in t && t[key].state.Leased? && t[key].leaseExpiresAt == Some(Iso(expiry))
    requires expiry < END_OF_TIME && Clock(op) / MICROSECONDS < expiry
    requires !((op.Ack? || op.Reject?) && KeyOf(op) == Some(key))
    ensures var (t', ok) := Step(quarantine, t, op);
            key in t' && t'[key] == t[key] && (op.Lease? && KeyOf(op) == Some(key) ==> !ok)
  {
    LapsesAt(t[key], expiry, Clock(op));
    hide Step, Iso, NowIso, Lapsed;
    UnlapsedStep(quarantine, t, op, key);
  }

  /** How many leases of `key` succeed in a run from table `t`. */
  function LeasesGranted<E>(quarantine: bool, t: Table<E>, ops: seq<Op<E>>, key: Key): nat {
    if ops == [] then 0
    else
      var op := ops[|ops| - 1];
      var granted := op.Lease? && KeyOf(op) == Some(key) && Step(quarantine, Run(quarantine, t, ops[..|ops| - 1]), op).1;
      LeasesGranted(quarantine, t, ops[..|ops| - 1], key) + if granted then 1 else 0
  }

  /** Statements that run before second `expiry` and neither ack nor reject `key`. */
  ghost predicate Undisturbed<E>(ops: seq<Op<E>>, key: Key, expiry: nat) {
    forall i | 0 <= i < |ops| ::
      && Clock(ops[i]) / MICROSECONDS < expiry
      && !((ops[i].Ack? || ops[i].Reject?) && KeyOf(ops[i]) == Some(key))
  }

  /**
   While a lease lives, no statement but an ack or a reject of the same message changes its row,
   and no other lease of it succeeds, in whatever order passes of any number of sessions interleave.
   */
  lemma {:induction false} LeaseIsExclusive<E>(quarantine: bool, t: Table<E>, ops: seq<Op<E>>, key: Key, expiry: nat)
    requires key in t && t[key].state.Leased? && t[key].leaseExpiresAt == Some(Iso(expiry))
    requires expiry < END_OF_TIME && Undisturbed(ops, key, expiry)
    ensures key in Run(quarantine, t, ops) && Run(quarantine, t, ops)[key] == t[key]
    ensures LeasesGranted(quarantine, t, ops, key) == 0
  {
    if ops != [] {
      var start := ops[..|ops| - 1];
      assert Undisturbed(start, key, expiry);
      LeaseIsExclusive(quarantine, t, start, key, expiry);
      LiveLeaseStep(quarantine, Run(quarantine, t, start), ops[|ops| - 1], key, expiry);
    }
  }

  /**
   The exact window of a lease taken at clock reading `again`: it lives for w microseconds with
   (seconds - 1) * 10^6 < w <= seconds * 10^6, and a later attempt succeeds if and only if w have passed.
   */
  lemma LeaseWindow<E>(quarantine: bool, t: Table<E>, op: Op<E>, ops: seq<Op<E>>, later: nat)
    requires op.Lease? && Step(quarantine, t, op).1
    requires later >= op.again && InRange(later) && InRange(op.again + op.seconds * MICROSECONDS)
    requires Undisturbed(ops, (op.client, op.id), ExpirySecond(op.again, op.seconds))
    ensures var window := ExpirySecond(op.again, op.seconds) * MICROSECONDS - op.again;
            && (op.seconds - 1) * MICROSECONDS < window <= op.seconds * MICROSECONDS
            && (Leasable(Run(quarantine, Step(quarantine, t, op).0, ops), (op.client, op.id), NowIso(later))
                <==> later >= op.again + window)
  {
    var key := (op.client, op.id);
    var expiry := ExpirySecond(op.again, op.seconds);
    var leased := Step(quarantine, t, op).0;
    LeaseIsExclusive(quarantine, leased, ops, key, expiry);
    LapsesAt(leased[key], expiry, later);
    assert expiry * MICROSECONDS <= later <==> expiry <= later / MICROSECONDS;
  }

  lemma LeaseLeaves<E>(quarantine: bool, t: Table<E>, op: Op<E>)
    requires op.Lease? && Step(quarantine, t, op).1
    ensures var (key, after) := ((op.client, op.id), Step(quarantine, t, op).0);
            && key in after && after[key].state.Leased?
            && after[key].leaseExpiresAt == Some(Iso(ExpirySecond(op.again, op.seconds)))
  {
    hide Iso;
  }

  /**
   Two successful leases of one message that nobody acked or rejected in between, by whatever sessions:
   the second was taken no earlier than the first had lapsed.
   */
  lemma LeasesStandApart<E>(quarantine: bool, t: Table<E>, first: Op<E>, between: seq<Op<E>>, second: Op<E>)
    requires first.Lease? && second.Lease? && KeyOf(first) == KeyOf(second) && Step(quarantine, t, first).1
    requires Step(quarantine, Run(quarantine, Step(quarantine, t, first).0, between), second).1
    requires InRange(first.again + first.seconds * MICROSECONDS)
    requires forall i | 0 <= i < |between| ::
               Clock(between[i]) <= second.now && !((between[i].Ack? || between[i].Reject?) && KeyOf(between[i]) == KeyOf(first))
    ensures second.now >= ExpirySecond(first.again, first.seconds) * MICROSECONDS
  {
    var key, expiry := (first.client, first.id), ExpirySecond(first.again, first.seconds);
    LeaseLeaves(quarantine, t, first);
    WholeSeconds(second.now, expiry);
    hide Step, Run, Iso, NowIso, ExpirySecond;
    if second.now < expiry * MICROSECONDS {
      forall i | 0 <= i < |between| ensures Clock(between[i]) / MICROSECONDS < expiry {
        WholeSeconds(Clock(between[i]), expiry);
      }
      LeaseIsExclusive(quarantine, Step(quarantine, t, first).0, between, key, expiry);
      LiveLeaseStep(quarantine, Run(quarantine, Step(quarantine, t, first).0, between), second, key, expiry);
    }
  }

  lemma WholeSeconds(now: nat, expiry: nat)
    ensures now / MICROSECONDS < expiry <==> now < expiry * MICROSECONDS
  {
  }
}
