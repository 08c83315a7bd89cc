/** Whole transactions: a session is begun, the services do the command's work in it step by step, and it is committed. */
module Transactions {
  import opened Wrappers
  import opened Errors
  import opened Snapshots
  import opened System
  import opened Sessions
  import Runs
  import AffiliateServices
  import BookingServices
  import B = Bookings
  import BS = BookingSafety
  import M = Money
  import MS = MoneySafety

  predicate OnBookings(cmd: Command) {
    !cmd.CreatePayout? && !cmd.SettlePayout? && !cmd.ReverseCommission?
  }

  /** The booking commands. */
  method BookingWork(cat: B.Catalog, s: Session, cmd: Command, collate: string -> int) returns (refused: Option<Error>)
    requires OnBookings(cmd)
    requires B.BookingKeysUnique(s.appointments) && forall id :: id in s.appointments ==> s.appointments[id].id == id
    modifies s
    ensures match Execute(cat, old(s.View()), cmd)
            case Success(v) => refused.None? && s.View() == v
            case Failure(e) => refused == Some(e)
  {
    hide B.Create, B.Cancel, B.Reschedule, B.RescheduleFromChannel, B.CancelFromChannel, B.CreateFromChannel, ApplyOutcome;
    match cmd
    case CreateAppointment(c) => {
      var r := BookingServices.CreateIn(cat, s, c, collate);
      refused := Refusal(r);
    }
    case CreateInChannel(c) => {
      var r := BookingServices.CreateFromChannelIn(cat, s, c, collate);
      refused := Refusal(r);
    }
    case CancelAppointment(c) => {
      var r := BookingServices.CancelIn(s, c);
      refused := Refusal(r);
    }
    case CancelInChannel(c) => {
      var r := BookingServices.CancelFromChannelIn(s, c);
      refused := Refusal(r);
    }
    case RescheduleAppointment(c) => {
      var r := BookingServices.RescheduleIn(s, c, collate);
      refused := Refusal(r);
    }
    case RescheduleInChannel(c) => {
      var r := BookingServices.RescheduleFromChannelIn(s, c, collate);
      refused := Refusal(r);
    }
    case RecordOutcome(c, id) => {
      var r := BookingServices.ApplyOutcomeIn(s, c, id);
      refused := Refusal(r);
    }
  }

  /** Does a command's work in a session: exactly what the command means on the state the session started from. */
  method Work(cat: B.Catalog, s: Session, cmd: Command, collate: string -> int) returns (refused: Option<Error>)
    requires Sound(cat, s.View())
    modifies s
    ensures match Execute(cat, old(s.View()), cmd)
            case Success(v) => refused.None? && s.View() == v
            case Failure(e) => refused == Some(e)
  {
    if OnBookings(cmd) {
      assert B.BookingKeysUnique(s.appointments) && forall id :: id in s.appointments ==> s.appointments[id].id == id;
      hide Sound, Execute;
      refused := BookingWork(cat, s, cmd, collate);
    } else {
      hide Sound, M.CreatePayout, M.SettlePayout, M.ReverseCommission;
      match cmd
      case CreatePayout(c) => {
        var r := AffiliateServices.CreatePayoutIn(s, c);
        refused := Refusal(r);
      }
      case SettlePayout(c) => {
        var r := AffiliateServices.SettlePayoutIn(s, c);
        refused := Refusal(r);
      }
      case ReverseCommission(c) => {
        var r := AffiliateServices.ReverseCommissionIn(s, c);
        refused := Refusal(r);
      }
    }
  }

  function Refusal<T>(r: Result<T, Error>): (result: Option<Error>) {
    if r.Failure? then Some(r.error) else None
  }

  /** With nobody else about, a transaction that is not refused always commits, and the database becomes what the command makes of it. */
  method Perform(cat: B.Catalog, database: Database, cmd: Command, collate: string -> int) returns (refused: Option<Error>)
    requires Sound(cat, database.db)
    modifies database
    ensures Sound(cat, database.db)
    ensures match Execute(cat, old(database.db), cmd)
            case Success(v) => refused.None? && database.db == v
            case Failure(e) => refused == Some(e) && database.db == old(database.db)
  {
    hide Sound, Execute, Runs.CanCommit, Runs.Merge;
    var s := database.Begin();
    refused := Work(cat, s, cmd, collate);
    if refused.None? {
      ExecuteKeepsSound(cat, database.db, cmd);
      CommitsAlone(cat, database.db, s.View());
      var committed := database.Commit(s);
    }
  }

  /** Committing onto an unchanged database publishes exactly the session's view. */
  lemma CommitsAlone(cat: B.Catalog, s: Db, v: Db)
    requires Sound(cat, v) && Evolved(s, v)
    ensures Runs.CanCommit(s, v, s) && Runs.Merge(s, v, s) == v
  {
    BookingsCommitAlone(cat, s.bookings, v.bookings);
    MoneyCommitsAlone(s.money, v.money);
  }

  lemma BookingsCommitAlone(cat: B.Catalog, s: B.Bookings, v: B.Bookings)
    requires BS.Sound(cat, v) && BS.Evolved(s, v)
    ensures BS.CanCommit(s, v, s) && BS.Merge(s, v, s) == v
  {
    MapMergesAlone(s.appointments, v.appointments);
    MapMergesAlone(s.locks, v.locks);
    RowsMergeAlone(s.timeline, v.timeline);
    RowsMergeAlone(s.conversions, v.conversions);
  }

  lemma MoneyCommitsAlone(s: M.Money, v: M.Money)
    requires MS.Sound(v) && MS.Evolved(s, v)
    ensures MS.CanCommit(s, v, s) && MS.Merge(s, v, s) == v
  {
    hide MS.PayoutEvolves;
    MapMergesAlone(s.balanceLocks, v.balanceLocks);
    MapMergesAlone(s.capacityLocks, v.capacityLocks);
    RowsMergeAlone(s.ledger, v.ledger);
    RowsMergeAlone(s.payouts, v.payouts);
  }

  lemma MapMergesAlone<K(!new), V>(s: map<K, V>, v: map<K, V>)
    ensures MapMergeable(s, v, s) && MergeMap(s, v, s) == v
  {
    var r := MergeMap(s, v, s);
    forall k ensures SameAt(r, v, k) {
      assert SameAt(r, if SameAt(s, v, k) then s else v, k);
    }
  }

  lemma RowsMergeAlone<T>(s: seq<T>, v: seq<T>)
    requires |s| <= |v|
    ensures RowsMergeable(s, v, s) && MergeRows(s, v, s) == v
    ensures s <= v ==> MergeAppended(s, v, s) == v
  {
  }
}
