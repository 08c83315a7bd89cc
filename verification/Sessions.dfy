/**
 The database as the services see it: a session is one transaction's private view, which the services read and write in
 place; the database hands out sessions on its current state and publishes their writes.
 */
module Sessions {
  import opened Snapshots
  import opened System
  import Runs
  import B = Bookings
  import M = Money

  class Session {
    const snapshot: Db
    var appointments: map<Id, B.Appointment>
    var locks: map<B.LockKey, Id>
    var timeline: seq<B.TimelineEvent>
    var conversions: seq<B.Conversion>
    var ledger: seq<M.LedgerEntry>
    var payouts: seq<M.Payout>
    var balanceLocks: map<M.Account, nat>
    var capacityLocks: map<M.Owner, nat>

    constructor (db: Db)
      ensures snapshot == db && View() == db
    {
      snapshot := db;
      appointments, locks := db.bookings.appointments, db.bookings.locks;
      timeline, conversions := db.bookings.timeline, db.bookings.conversions;
      ledger, payouts := db.money.ledger, db.money.payouts;
      balanceLocks, capacityLocks := db.money.balanceLocks, db.money.capacityLocks;
    }

    function Bookings(): (r: B.Bookings)
      reads this
    {
      B.Bookings(appointments, locks, timeline, conversions)
    }

    function Money(): (r: M.Money)
      reads this
    {
      M.Money(ledger, payouts, balanceLocks, capacityLocks)
    }

    function View(): (r: Db)
      reads this
    {
      Db(Bookings(), Money())
    }
  }

  class Database {
    var db: Db

    constructor ()
      ensures db == Empty
    {
      db := Empty;
    }

    method Begin() returns (s: Session)
      ensures fresh(s) && s.snapshot == db && s.View() == db
    {
      s := new Session(db);
    }

    /** Publishes a session's writes if nothing it changed has been changed since its snapshot. */
    method Commit(s: Session) returns (committed: bool)
      modifies this
      ensures committed <==> Runs.CanCommit(s.snapshot, s.View(), old(db))
      ensures db == if committed then Runs.Merge(s.snapshot, s.View(), old(db)) else old(db)
      ensures committed ==> Published(s.snapshot, s.View(), old(db), db) && IndexesHold(db)
    {
      committed := Runs.CanCommit(s.snapshot, s.View(), db);
      if committed {
        MergePublishes(s.snapshot, s.View(), db);
        db := Runs.Merge(s.snapshot, s.View(), db);
      }
    }
  }

  /** Document by document: what the session changed is as the session left it, and was untouched meanwhile; the rest is as committed meanwhile. */
  ghost predicate Published(snapshot: Db, view: Db, before: Db, after: Db) {
    && LaidOver(snapshot.bookings.appointments, view.bookings.appointments, before.bookings.appointments, after.bookings.appointments)
    && LaidOver(snapshot.bookings.locks, view.bookings.locks, before.bookings.locks, after.bookings.locks)
    && LaidOver(snapshot.money.balanceLocks, view.money.balanceLocks, before.money.balanceLocks, after.money.balanceLocks)
    && LaidOver(snapshot.money.capacityLocks, view.money.capacityLocks, before.money.capacityLocks, after.money.capacityLocks)
    && RowsLaidOver(snapshot.bookings.timeline, view.bookings.timeline, before.bookings.timeline, after.bookings.timeline)
    && RowsLaidOver(snapshot.bookings.conversions, view.bookings.conversions, before.bookings.conversions, after.bookings.conversions)
    && RowsLaidOver(snapshot.money.ledger, view.money.ledger, before.money.ledger, after.money.ledger)
    && RowsLaidOver(snapshot.money.payouts, view.money.payouts, before.money.payouts, after.money.payouts)
  }

  /** Every unique index of the modelled collections. */
  ghost predicate IndexesHold(db: Db) {
    && B.BookingKeysUnique(db.bookings.appointments)
    && B.TimelineUnique(db.bookings.timeline)
    && B.ConversionsUnique(db.bookings.conversions)
    && M.LedgerUnique(db.money.ledger)
    && M.PayoutsUnique(db.money.payouts)
  }

  lemma MergePublishes(snapshot: Db, view: Db, before: Db)
    requires Runs.CanCommit(snapshot, view, before)
    ensures Published(snapshot, view, before, Runs.Merge(snapshot, view, before)) && IndexesHold(Runs.Merge(snapshot, view, before))
  {
    hide LaidOver, MapMergeable, B.BookingKeysUnique, B.TimelineUnique, B.ConversionsUnique, M.LedgerUnique, M.PayoutsUnique;
    MergeLaysOver(snapshot.bookings.appointments, view.bookings.appointments, before.bookings.appointments);
    MergeLaysOver(snapshot.bookings.locks, view.bookings.locks, before.bookings.locks);
    MergeLaysOver(snapshot.money.balanceLocks, view.money.balanceLocks, before.money.balanceLocks);
    MergeLaysOver(snapshot.money.capacityLocks, view.money.capacityLocks, before.money.capacityLocks);
  }
}
