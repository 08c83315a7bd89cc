/**
 The metadata sanitizer of the audit log: it bounds depth and width, and hides values under sensitive keys.
 Sanitizing twice is not always the same as sanitizing once; this module says exactly when it is.
 */
module AuditSanitizer {
  import opened Wrappers
  import opened Sequences
  import opened Text

  const MAX_DEPTH := 4
  const MAX_TEXT := 500
  const MAX_ITEMS := 25
  const MAX_ENTRIES := 50
  const MAX_KEY := 100

  /** Any value a caller can pass: finite numbers, other numbers, and values of no JSON type are kept apart. */
  datatype Value =
    | Null
    | Bool(b: bool)
    | Number(n: int)
    | NotFinite
    | Text(s: string)
    | Array(items: seq<Value>)
    | Object(entries: seq<Entry>)
    | Unsupported

  datatype Entry = Entry(key: string, value: Value)

  const TRUNCATED := Text("[TRUNCATED]")
  const REDACTED := Text("[REDACTED]")
  const UNSUPPORTED := Text("[UNSUPPORTED]")

  const SENSITIVE_WORDS: seq<string> :=
    ["password", "secret", "token", "authorization", "cookie", "credential", "apikey", "api-key", "api_key"]

  predicate Sensitive(key: string) {
    exists i :: 0 <= i < |SENSITIVE_WORDS| && Contains(Lower(key), SENSITIVE_WORDS[i])
  }

  function Cut(s: string, n: nat): (r: string) { Take(s, n) }

  function Capped(n: nat, limit: nat): (r: nat)
    ensures r <= n && r <= limit && (r == n || r == limit)
  {
    if n <= limit then n else limit
  }

  function KeyAt(entries: seq<Entry>, key: string): (r: Option<nat>) {
    FirstIndex(entries, (e: Entry) => e.key == key)
  }

  /** Building an object from entries: a repeated key keeps its first place and its last value. */
  function FromEntries(entries: seq<Entry>): (r: seq<Entry>) {
    if |entries| == 0 then []
    else
      var built, e := FromEntries(entries[..|entries| - 1]), entries[|entries| - 1];
      match KeyAt(built, e.key)
      case Some(i) => built[i := e]
      case None => built + [e]
  }

  function SanitizeValue(v: Value, depth: nat): (r: Value)
    decreases v
  {
    if depth > MAX_DEPTH then TRUNCATED
    else match v
      case Null => v
      case Bool(_) => v
      case Number(_) => v
      case NotFinite => Number(0)
      case Text(s) => Text(Cut(s, MAX_TEXT))
      case Array(items) =>
        Array(seq(Capped(|items|, MAX_ITEMS), i requires 0 <= i < Capped(|items|, MAX_ITEMS) => SanitizeValue(items[i], depth + 1)))
      case Object(entries) =>
        Object(FromEntries(seq(Capped(|entries|, MAX_ENTRIES), i requires 0 <= i < Capped(|entries|, MAX_ENTRIES) =>
          Entry(Cut(entries[i].key, MAX_KEY),
                if Sensitive(entries[i].key) then REDACTED else SanitizeValue(entries[i].value, depth + 1)))))
      case Unsupported => UNSUPPORTED
  }

  function SanitizeAuditMetadata(metadata: Value): (r: Value) {
    SanitizeValue(metadata, 0)
  }

  // ----- objects built from entries -----

  ghost predicate KeysDistinct(entries: seq<Entry>) {
    forall i, j :: 0 <= i < j < |entries| ==> entries[i].key != entries[j].key
  }

  /** No later entry takes this one's key. */
  predicate LastOfKey(entries: seq<Entry>, i: int) {
    0 <= i < |entries| && forall j :: i < j < |entries| ==> entries[j].key != entries[i].key
  }

  ghost predicate LastGiven(entries: seq<Entry>, e: Entry) {
    exists i :: LastOfKey(entries, i) && entries[i] == e
  }

  /** The built object has every key once, with the last value that was given for it, and nothing else. */
  lemma {:induction false} FromEntriesKeepsLast(entries: seq<Entry>)
    ensures KeysDistinct(FromEntries(entries)) && |FromEntries(entries)| <= |entries|
    ensures forall e :: e in FromEntries(entries) <==> LastGiven(entries, e)
  {
    if |entries| > 0 {
      var init, last := entries[..|entries| - 1], entries[|entries| - 1];
      FromEntriesKeepsLast(init);
      LastGivenAppend(entries);
      BuiltWith(FromEntries(init), last, FromEntries(entries));
      hide LastGiven, KeyAt;
    }
  }

  lemma LastGivenAppend(entries: seq<Entry>)
    requires |entries| > 0
    ensures var init, last := entries[..|entries| - 1], entries[|entries| - 1];
            forall e :: LastGiven(entries, e) <==> e == last || (LastGiven(init, e) && e.key != last.key)
  {
    var n := |entries| - 1;
    var init, last := entries[..n], entries[n];
    assert LastOfKey(entries, n);
    assert LastGiven(entries, last);
    forall e ensures LastGiven(entries, e) <==> e == last || (LastGiven(init, e) && e.key != last.key) {
      if LastGiven(init, e) && e.key != last.key {
        LastGivenStays(entries, e);
      }
      if LastGiven(entries, e) && e != last {
        LastGivenBefore(entries, e);
      }
      hide LastGiven;
    }
  }

  lemma LastGivenStays(entries: seq<Entry>, e: Entry)
    requires |entries| > 0 && LastGiven(entries[..|entries| - 1], e) && e.key != entries[|entries| - 1].key
    ensures LastGiven(entries, e)
  {
    var init := entries[..|entries| - 1];
    var i :| LastOfKey(init, i) && init[i] == e;
    forall j | i < j < |entries| ensures entries[j].key != entries[i].key {
      if j < |init| {
        assert init[j] == entries[j];
      }
    }
    assert LastOfKey(entries, i) && entries[i] == e;
  }

  lemma LastGivenBefore(entries: seq<Entry>, e: Entry)
    requires |entries| > 0 && LastGiven(entries, e) && e != entries[|entries| - 1]
    ensures LastGiven(entries[..|entries| - 1], e) && e.key != entries[|entries| - 1].key
  {
    var init := entries[..|entries| - 1];
    var i :| LastOfKey(entries, i) && entries[i] == e;
    forall j | i < j < |init| ensures init[j].key != init[i].key {
      assert init[j] == entries[j];
    }
    assert LastOfKey(init, i) && init[i] == e;
  }

  lemma BuiltWith(built: seq<Entry>, last: Entry, out: seq<Entry>)
    requires KeysDistinct(built)
    requires out == match KeyAt(built, last.key) case Some(i) => built[i := last] case None => built + [last]
    ensures KeysDistinct(out) && forall e :: e in out <==> e == last || (e in built && e.key != last.key)
  {
    match KeyAt(built, last.key)
    case None =>
    case Some(i) =>
      assert out[i] == last;
      forall e | e in built && e.key != last.key ensures e in out {
        var j :| 0 <= j < |built| && built[j] == e;
        assert out[j] == e;
      }
  }

  lemma {:induction false} DistinctEntriesStay(entries: seq<Entry>)
    requires KeysDistinct(entries)
    ensures FromEntries(entries) == entries
  {
    if |entries| > 0 {
      DistinctEntriesStay(entries[..|entries| - 1]);
      assert entries == entries[..|entries| - 1] + [entries[|entries| - 1]];
    }
  }

  // ----- sensitive keys -----

  /** A key whose first characters already betray it is sensitive as a whole. */
  lemma CuttingKeepsNothingSecret(key: string)
    requires Sensitive(Cut(key, MAX_KEY))
    ensures Sensitive(key)
  {
    var cut := Cut(key, MAX_KEY);
    var i :| 0 <= i < |SENSITIVE_WORDS| && Contains(Lower(cut), SENSITIVE_WORDS[i]);
    var word := SENSITIVE_WORDS[i];
    var at :| 0 <= at <= |Lower(cut)| - |word| && OccursAt(Lower(cut), word, at);
    assert Lower(key)[at..at + |word|] == Lower(cut)[at..at + |word|];
    assert OccursAt(Lower(key), word, at);
  }

  // ----- bounds -----

  /** At most `levels` containers deep, and within every width limit. */
  ghost predicate WithinLimits(v: Value, levels: nat)
    decreases v
  {
    match v
    case Text(s) => |s| <= MAX_TEXT
    case Array(items) => levels > 0 && |items| <= MAX_ITEMS && forall i :: 0 <= i < |items| ==> WithinLimits(items[i], levels - 1)
    case Object(entries) =>
      && levels > 0 && |entries| <= MAX_ENTRIES && KeysDistinct(entries)
      && forall i :: 0 <= i < |entries| ==> |entries[i].key| <= MAX_KEY && WithinLimits(entries[i].value, levels - 1)
    case NotFinite => false
    case Unsupported => false
    case _ => true
  }

  /** Every sensitive key, at every level, maps to the redaction mark. */
  ghost predicate AllRedacted(v: Value)
    decreases v
  {
    match v
    case Array(items) => forall i :: 0 <= i < |items| ==> AllRedacted(items[i])
    case Object(entries) =>
      forall i :: 0 <= i < |entries| ==>
        (Sensitive(entries[i].key) ==> entries[i].value == REDACTED) && AllRedacted(entries[i].value)
    case _ => true
  }

  /** What the sanitizer makes of one entry. */
  function Cleaned(e: Entry, depth: nat): (r: Entry) {
    Entry(Cut(e.key, MAX_KEY), if Sensitive(e.key) then REDACTED else SanitizeValue(e.value, depth + 1))
  }

  function CleanedEntries(entries: seq<Entry>, depth: nat): (r: seq<Entry>)
    ensures |r| == Capped(|entries|, MAX_ENTRIES)
    ensures forall i :: 0 <= i < |r| ==> r[i] == Cleaned(entries[i], depth)
  {
    seq(Capped(|entries|, MAX_ENTRIES), i requires 0 <= i < Capped(|entries|, MAX_ENTRIES) => Cleaned(entries[i], depth))
  }

  lemma ObjectsAreCleaned(entries: seq<Entry>, depth: nat)
    requires depth <= MAX_DEPTH
    ensures SanitizeValue(Object(entries), depth) == Object(FromEntries(CleanedEntries(entries, depth)))
  {
    var built := seq(Capped(|entries|, MAX_ENTRIES), i requires 0 <= i < Capped(|entries|, MAX_ENTRIES) =>
          Entry(Cut(entries[i].key, MAX_KEY),
                if Sensitive(entries[i].key) then REDACTED else SanitizeValue(entries[i].value, depth + 1)));
    assert built == CleanedEntries(entries, depth);
  }

  /** Every entry of a cleaned object is the cleaning of one of the entries it was given. */
  lemma CleanedFrom(entries: seq<Entry>, depth: nat, e: Entry) returns (i: nat)
    requires e in FromEntries(CleanedEntries(entries, depth))
    ensures i < |entries| && LastOfKey(CleanedEntries(entries, depth), i) && e == Cleaned(entries[i], depth)
  {
    hide Cleaned, FromEntries;
    FromEntriesKeepsLast(CleanedEntries(entries, depth));
    i :| LastOfKey(CleanedEntries(entries, depth), i) && CleanedEntries(entries, depth)[i] == e;
  }

  lemma {:induction false} SanitizedIsWithinLimits(v: Value, depth: nat)
    requires depth <= MAX_DEPTH + 1
    ensures WithinLimits(SanitizeValue(v, depth), MAX_DEPTH + 1 - depth)
    decreases v
  {
    if depth <= MAX_DEPTH {
      match v
      case Array(items) =>
        forall i | 0 <= i < Capped(|items|, MAX_ITEMS) ensures WithinLimits(SanitizeValue(items[i], depth + 1), MAX_DEPTH - depth) {
          SanitizedIsWithinLimits(items[i], depth + 1);
        }
      case Object(entries) =>
        forall i | 0 <= i < |entries| ensures WithinLimits(SanitizeValue(entries[i].value, depth + 1), MAX_DEPTH - depth) {
          SanitizedIsWithinLimits(entries[i].value, depth + 1);
        }
        ObjectIsWithinLimits(entries, depth);
      case _ =>
    }
  }

  lemma ObjectIsWithinLimits(entries: seq<Entry>, depth: nat)
    requires depth <= MAX_DEPTH
    requires forall i :: 0 <= i < |entries| ==> WithinLimits(SanitizeValue(entries[i].value, depth + 1), MAX_DEPTH - depth)
    ensures WithinLimits(SanitizeValue(Object(entries), depth), MAX_DEPTH + 1 - depth)
  {
    ObjectsAreCleaned(entries, depth);
    hide SanitizeValue, FromEntries, Sensitive, LastOfKey;
    var out := FromEntries(CleanedEntries(entries, depth));
    FromEntriesKeepsLast(CleanedEntries(entries, depth));
    forall j | 0 <= j < |out| ensures |out[j].key| <= MAX_KEY && WithinLimits(out[j].value, MAX_DEPTH - depth) {
      var i := CleanedFrom(entries, depth, out[j]);
    }
  }

  lemma {:induction false} SanitizedIsRedacted(v: Value, depth: nat)
    ensures AllRedacted(SanitizeValue(v, depth))
    decreases v
  {
    if depth <= MAX_DEPTH {
      match v
      case Array(items) =>
        forall i | 0 <= i < Capped(|items|, MAX_ITEMS) ensures AllRedacted(SanitizeValue(items[i], depth + 1)) {
          SanitizedIsRedacted(items[i], depth + 1);
        }
      case Object(entries) =>
        forall i | 0 <= i < |entries| ensures AllRedacted(SanitizeValue(entries[i].value, depth + 1)) {
          SanitizedIsRedacted(entries[i].value, depth + 1);
        }
        ObjectIsRedacted(entries, depth);
      case _ =>
    }
  }

  lemma ObjectIsRedacted(entries: seq<Entry>, depth: nat)
    requires depth <= MAX_DEPTH
    requires forall i :: 0 <= i < |entries| ==> AllRedacted(SanitizeValue(entries[i].value, depth + 1))
    ensures AllRedacted(SanitizeValue(Object(entries), depth))
  {
    ObjectsAreCleaned(entries, depth);
    hide SanitizeValue, FromEntries, Sensitive, LastOfKey;
    var out := FromEntries(CleanedEntries(entries, depth));
    forall j | 0 <= j < |out| ensures (Sensitive(out[j].key) ==> out[j].value == REDACTED) && AllRedacted(out[j].value) {
      var i := CleanedFrom(entries, depth, out[j]);
      if Sensitive(out[j].key) {
        CuttingKeepsNothingSecret(entries[i].key);
      }
    }
  }

  /** Stored metadata is at most five containers deep, within every width limit, and shows no value under a sensitive key. */
  lemma StoredMetadataIsSafe(metadata: Value)
    ensures WithinLimits(SanitizeAuditMetadata(metadata), 5) && AllRedacted(SanitizeAuditMetadata(metadata))
  {
    SanitizedIsWithinLimits(metadata, 0);
    SanitizedIsRedacted(metadata, 0);
  }

  // ----- what is kept -----

  /** The key contains one of the telling words, in any case. */
  ghost predicate Telling(key: string) {
    exists w, at :: TellingWord(w) && SpeltAt(key, w, at)
  }

  predicate TellingWord(w: string) {
    w == "password" || w == "secret" || w == "token" || w == "authorization" || w == "cookie" || w == "credential" ||
    w == "apikey" || w == "api-key" || w == "api_key"
  }

  predicate SpeltAt(key: string, w: string, at: int) {
    0 <= at <= |key| - |w| && forall j :: 0 <= j < |w| ==> LowerChar(key[at + j]) == w[j]
  }

  lemma SensitiveMeansTelling(key: string)
    ensures Sensitive(key) <==> Telling(key)
  {
    forall i, at | 0 <= i < |SENSITIVE_WORDS|
      ensures OccursAt(Lower(key), SENSITIVE_WORDS[i], at) <==> SpeltAt(key, SENSITIVE_WORDS[i], at)
    {
      LoweredWord(key, SENSITIVE_WORDS[i], at);
    }
    WordsAreListed();
    hide OccursAt, SpeltAt, TellingWord;
    if Telling(key) {
      var w, at :| TellingWord(w) && SpeltAt(key, w, at);
      var i :| 0 <= i < |SENSITIVE_WORDS| && SENSITIVE_WORDS[i] == w;
      assert OccursAt(Lower(key), SENSITIVE_WORDS[i], at);
      SpeltWithin(key, w, at);
      assert Contains(Lower(key), SENSITIVE_WORDS[i]);
    }
    if Sensitive(key) {
      var i :| 0 <= i < |SENSITIVE_WORDS| && Contains(Lower(key), SENSITIVE_WORDS[i]);
      var at :| 0 <= at <= |Lower(key)| - |SENSITIVE_WORDS[i]| && OccursAt(Lower(key), SENSITIVE_WORDS[i], at);
      assert TellingWord(SENSITIVE_WORDS[i]) && SpeltAt(key, SENSITIVE_WORDS[i], at);
    }
  }

  lemma SpeltWithin(key: string, w: string, at: int)
    requires SpeltAt(key, w, at)
    ensures 0 <= at <= |Lower(key)| - |w|
  {
  }

  lemma WordsAreListed()
    ensures forall w :: TellingWord(w) <==> w in SENSITIVE_WORDS
  {
  }

  lemma LoweredWord(key: string, w: string, at: int)
    ensures OccursAt(Lower(key), w, at) <==> SpeltAt(key, w, at)
  {
    if 0 <= at <= |key| - |w| {
      var part := Lower(key)[at..at + |w|];
      assert forall j :: 0 <= j < |w| ==> part[j] == LowerChar(key[at + j]);
      if SpeltAt(key, w, at) {
        assert part == w;
      }
    }
  }

  /**
   What is shown of a value: everything that fits, the beginning of a text or list that is too long, for each shortened key
   the last value given for it, and a mark for what is hidden, too deep or not storable.
   */
  ghost predicate Shows(v: Value, r: Value, depth: nat)
    decreases v
  {
    if depth > 4 then r == Text("[TRUNCATED]")
    else match v
      case NotFinite => r == Number(0)
      case Unsupported => r == Text("[UNSUPPORTED]")
      case Text(s) => r.Text? && r.s <= s && |r.s| == if |s| <= 500 then |s| else 500
      case Array(items) =>
        && r.Array? && |r.items| == (if |items| <= 25 then |items| else 25)
        && forall i :: 0 <= i < |r.items| ==> Shows(items[i], r.items[i], depth + 1)
      case Object(entries) =>
        && r.Object?
        && KeysAreShown(entries, r.entries)
        && forall j :: 0 <= j < |r.entries| ==> ShowsLast(entries, r.entries[j], depth)
      case _ => r == v
  }

  /** The last of the first fifty entries whose key is shortened to this one. */
  ghost predicate Stands(entries: seq<Entry>, i: int, key: string) {
    && 0 <= i < |entries| && i < 50 && Cut(entries[i].key, 100) == key
    && forall j :: i < j < |entries| && j < 50 ==> Cut(entries[j].key, 100) != key
  }

  ghost predicate KeysAreShown(entries: seq<Entry>, shown: seq<Entry>) {
    forall i :: 0 <= i < |entries| && i < 50 ==> HasKey(shown, Cut(entries[i].key, 100))
  }

  ghost predicate HasKey(entries: seq<Entry>, key: string) {
    exists e :: e in entries && e.key == key
  }

  ghost predicate ShowsLast(entries: seq<Entry>, shown: Entry, depth: nat)
    decreases entries
  {
    exists i :: Stands(entries, i, shown.key) && ShowsEntry(entries[i], shown.value, depth)
  }

  ghost predicate ShowsEntry(e: Entry, shown: Value, depth: nat)
    decreases e
  {
    if Telling(e.key) then shown == Text("[REDACTED]") else Shows(e.value, shown, depth + 1)
  }

  lemma {:induction false} SanitizedShowsWhatItMay(v: Value, depth: nat)
    ensures Shows(v, SanitizeValue(v, depth), depth)
    decreases v
  {
    if depth <= MAX_DEPTH {
      match v
      case Array(items) =>
        forall i | 0 <= i < |items| ensures Shows(items[i], SanitizeValue(items[i], depth + 1), depth + 1) {
          SanitizedShowsWhatItMay(items[i], depth + 1);
        }
      case Object(entries) =>
        forall i | 0 <= i < |entries| ensures Shows(entries[i].value, SanitizeValue(entries[i].value, depth + 1), depth + 1) {
          SanitizedShowsWhatItMay(entries[i].value, depth + 1);
        }
        ObjectShowsItsEntries(entries, depth);
      case _ =>
    }
  }

  lemma ObjectShowsItsEntries(entries: seq<Entry>, depth: nat)
    requires depth <= MAX_DEPTH
    requires forall i :: 0 <= i < |entries| ==> Shows(entries[i].value, SanitizeValue(entries[i].value, depth + 1), depth + 1)
    ensures Shows(Object(entries), SanitizeValue(Object(entries), depth), depth)
  {
    ObjectsAreCleaned(entries, depth);
    hide SanitizeValue, FromEntries, Sensitive, Telling, KeysAreShown, ShowsLast, CleanedEntries;
    var out := FromEntries(CleanedEntries(entries, depth));
    EveryKeyIsShown(entries, depth);
    forall j | 0 <= j < |out| ensures ShowsLast(entries, out[j], depth) {
      EntryShowsItsLast(entries, depth, out[j]);
    }
  }

  lemma EveryKeyIsShown(entries: seq<Entry>, depth: nat)
    ensures KeysAreShown(entries, FromEntries(CleanedEntries(entries, depth)))
  {
    hide FromEntries, Sensitive, SanitizeValue;
    var cleaned := CleanedEntries(entries, depth);
    FromEntriesKeepsLast(cleaned);
    forall i | 0 <= i < |entries| && i < 50 ensures HasKey(FromEntries(cleaned), Cut(entries[i].key, 100)) {
      var last := LastWithKey(cleaned, i);
      assert LastGiven(cleaned, cleaned[last]);
      assert cleaned[last] in FromEntries(cleaned) && cleaned[i].key == Cut(entries[i].key, 100);
    }
  }

  lemma EntryShowsItsLast(entries: seq<Entry>, depth: nat, e: Entry)
    requires depth <= MAX_DEPTH && e in FromEntries(CleanedEntries(entries, depth))
    requires forall k :: 0 <= k < |entries| ==> Shows(entries[k].value, SanitizeValue(entries[k].value, depth + 1), depth + 1)
    ensures ShowsLast(entries, e, depth)
  {
    hide FromEntries, Sensitive, SanitizeValue, Telling, Shows;
    var i := CleanedFrom(entries, depth, e);
    SensitiveMeansTelling(entries[i].key);
    var cleaned := CleanedEntries(entries, depth);
    assert forall k :: 0 <= k < |cleaned| ==> cleaned[k].key == Cut(entries[k].key, 100);
    assert Stands(entries, i, e.key) && ShowsEntry(entries[i], e.value, depth);
  }

  lemma {:induction false} LastWithKey(entries: seq<Entry>, i: nat) returns (last: nat)
    requires i < |entries|
    ensures i <= last && LastOfKey(entries, last) && entries[last].key == entries[i].key
    decreases |entries| - i
  {
    last := i;
    if j :| i < j < |entries| && entries[j].key == entries[i].key {
      last := LastWithKey(entries, j);
    }
  }

  // ----- sanitizing twice -----

  /**
   Whether a value sanitizes to a fixpoint: no object on the deepest level keeps an entry whose key is sensitive only
   beyond the part of the key that is kept. The first pass marks such an entry as redacted; a second pass, which
   no longer sees why, marks it as truncated.
   */
  predicate Settles(v: Value, depth: nat)
    decreases v
  {
    depth > MAX_DEPTH ||
    match v
    case Array(items) => forall i :: 0 <= i < Capped(|items|, MAX_ITEMS) ==> Settles(items[i], depth + 1)
    case Object(entries) =>
      forall i :: 0 <= i < Capped(|entries|, MAX_ENTRIES) && Kept(entries, i) ==>
        if Sensitive(entries[i].key) then depth < MAX_DEPTH || Sensitive(Cut(entries[i].key, MAX_KEY))
        else Settles(entries[i].value, depth + 1)
    case _ => true
  }

  /** No later entry that is looked at shares the part of the key that is kept. */
  predicate Kept(entries: seq<Entry>, i: int) {
    0 <= i < Capped(|entries|, MAX_ENTRIES) &&
    forall j :: i < j < Capped(|entries|, MAX_ENTRIES) ==> Cut(entries[j].key, MAX_KEY) != Cut(entries[i].key, MAX_KEY)
  }

  predicate Same(e: Entry, depth: nat) { Cleaned(e, depth) == e }

  /** Cleaning a cleaned object again changes it entry by entry. */
  lemma SecondPass(entries: seq<Entry>, depth: nat, out: seq<Entry>)
    requires depth <= MAX_DEPTH && out == FromEntries(CleanedEntries(entries, depth))
    ensures SanitizeValue(Object(out), depth) == Object(out) <==> forall j :: 0 <= j < |out| ==> Same(out[j], depth)
  {
    FromEntriesKeepsLast(CleanedEntries(entries, depth));
    ObjectsAreCleaned(out, depth);
    var again := CleanedEntries(out, depth);
    forall j | 0 <= j < |out| ensures again[j].key == out[j].key {
      var i := CleanedFrom(entries, depth, out[j]);
    }
    DistinctEntriesStay(again);
    if forall j :: 0 <= j < |out| ==> Same(out[j], depth) {
      assert again == out;
    } else {
      var j :| 0 <= j < |out| && !Same(out[j], depth);
      assert again[j] != out[j];
    }
  }

  /** Sanitizing again changes nothing exactly when the value settles. */
  lemma {:induction false} SanitizingTwiceIsOnceIffSettled(v: Value, depth: nat)
    ensures SanitizeValue(SanitizeValue(v, depth), depth) == SanitizeValue(v, depth) <==> Settles(v, depth)
    decreases v
  {
    if depth <= MAX_DEPTH {
      match v
      case Array(items) => ArraysSettle(items, depth, v);
      case Object(entries) => ObjectsSettle(entries, depth, v);
      case _ =>
    }
  }

  lemma {:induction false} ArraysSettle(items: seq<Value>, depth: nat, v: Value)
    requires v == Array(items) && depth <= MAX_DEPTH
    ensures SanitizeValue(SanitizeValue(v, depth), depth) == SanitizeValue(v, depth) <==> Settles(v, depth)
    decreases v, 0
  {
    var n := Capped(|items|, MAX_ITEMS);
    var once := SanitizeValue(v, depth);
    var twice := SanitizeValue(once, depth);
    assert |once.items| == |twice.items| == n;
    forall i | 0 <= i < n ensures twice.items[i] == once.items[i] <==> Settles(items[i], depth + 1) {
      SanitizingTwiceIsOnceIffSettled(items[i], depth + 1);
    }
    if Settles(v, depth) {
      assert twice.items == once.items;
    } else {
      var i :| 0 <= i < n && !Settles(items[i], depth + 1);
      assert twice.items[i] != once.items[i];
    }
  }

  lemma {:induction false} ObjectsSettle(entries: seq<Entry>, depth: nat, v: Value)
    requires v == Object(entries) && depth <= MAX_DEPTH
    ensures SanitizeValue(SanitizeValue(v, depth), depth) == SanitizeValue(v, depth) <==> Settles(v, depth)
    decreases v, 0
  {
    var out := FromEntries(CleanedEntries(entries, depth));
    ObjectsAreCleaned(entries, depth);
    SecondPass(entries, depth, out);
    forall i | 0 <= i < Capped(|entries|, MAX_ENTRIES) ensures Same(Cleaned(entries[i], depth), depth) <==> EntrySettles(entries[i], depth) {
      if !Sensitive(entries[i].key) {
        SanitizingTwiceIsOnceIffSettled(entries[i].value, depth + 1);
      }
      EntryIsSame(entries[i], depth);
    }
    KeptEntriesDecide(entries, depth, out);
    assert Settles(v, depth) <==> KeptSettle(entries, depth);
  }

  ghost predicate KeptSettle(entries: seq<Entry>, depth: nat) {
    forall i :: 0 <= i < Capped(|entries|, MAX_ENTRIES) && Kept(entries, i) ==> EntrySettles(entries[i], depth)
  }

  /** The entries of the cleaned object are the cleaned kept ones, so those decide whether a second pass changes it. */
  lemma KeptEntriesDecide(entries: seq<Entry>, depth: nat, out: seq<Entry>)
    requires out == FromEntries(CleanedEntries(entries, depth))
    requires forall i :: 0 <= i < Capped(|entries|, MAX_ENTRIES) ==> (Same(Cleaned(entries[i], depth), depth) <==> EntrySettles(entries[i], depth))
    ensures (forall j :: 0 <= j < |out| ==> Same(out[j], depth)) <==> KeptSettle(entries, depth)
  {
    var cleaned := CleanedEntries(entries, depth);
    FromEntriesKeepsLast(cleaned);
    hide FromEntries, Same, EntrySettles;
    forall i | 0 <= i < |cleaned| ensures LastOfKey(cleaned, i) <==> Kept(entries, i) {
      assert forall j :: 0 <= j < |cleaned| ==> cleaned[j].key == Cut(entries[j].key, MAX_KEY);
    }
    hide Cleaned, Cut, Kept;
    if KeptSettle(entries, depth) {
      forall j | 0 <= j < |out| ensures Same(out[j], depth) {
        assert LastGiven(cleaned, out[j]);
        var i :| LastOfKey(cleaned, i) && cleaned[i] == out[j];
      }
    } else {
      var i :| 0 <= i < |cleaned| && Kept(entries, i) && !EntrySettles(entries[i], depth);
      assert LastGiven(cleaned, cleaned[i]);
      var j :| 0 <= j < |out| && out[j] == cleaned[i];
    }
  }

  predicate EntrySettles(e: Entry, depth: nat) {
    if Sensitive(e.key) then depth < MAX_DEPTH || Sensitive(Cut(e.key, MAX_KEY)) else Settles(e.value, depth + 1)
  }

  lemma EntryIsSame(e: Entry, depth: nat)
    requires depth <= MAX_DEPTH
    requires !Sensitive(e.key) ==>
               (SanitizeValue(SanitizeValue(e.value, depth + 1), depth + 1) == SanitizeValue(e.value, depth + 1) <==> Settles(e.value, depth + 1))
    ensures Same(Cleaned(e, depth), depth) <==> EntrySettles(e, depth)
  {
    var c := Cleaned(e, depth);
    assert Cut(c.key, MAX_KEY) == c.key;
    if Sensitive(c.key) {
      CuttingKeepsNothingSecret(e.key);
    }
    assert REDACTED.s != TRUNCATED.s by {
      assert REDACTED.s[1] != TRUNCATED.s[1];
    }
  }

  /** Metadata without overlong keys sanitizes to a fixpoint. */
  ghost predicate KeysAreShort(v: Value)
    decreases v
  {
    match v
    case Array(items) => forall i :: 0 <= i < |items| ==> KeysAreShort(items[i])
    case Object(entries) => forall i :: 0 <= i < |entries| ==> |entries[i].key| <= MAX_KEY && KeysAreShort(entries[i].value)
    case _ => true
  }

  lemma {:induction false} ShortKeysSettle(v: Value, depth: nat)
    requires KeysAreShort(v)
    ensures Settles(v, depth)
    decreases v
  {
    match v
    case Array(items) =>
      forall i | 0 <= i < |items| ensures Settles(items[i], depth + 1) {
        ShortKeysSettle(items[i], depth + 1);
      }
    case Object(entries) =>
      forall i | 0 <= i < |entries| ensures Settles(entries[i].value, depth + 1) {
        ShortKeysSettle(entries[i].value, depth + 1);
      }
    case _ =>
  }

  // ----- an input that does not settle -----

  function Filler(): (r: string) { seq(MAX_KEY, _ => 'x') }

  const LATE_KEY := Filler() + "token"

  function Nested(levels: nat, inner: Value): (r: Value) {
    if levels == 0 then inner else Object([Entry("a", Nested(levels - 1, inner))])
  }

  const UNSETTLED := Nested(4, Object([Entry(LATE_KEY, Null)]))

  lemma LateKeyIsSensitiveOnlyAsAWhole()
    ensures Sensitive(LATE_KEY) && !Sensitive(Cut(LATE_KEY, MAX_KEY)) && !Sensitive("a")
  {
    assert Lower(LATE_KEY)[MAX_KEY..MAX_KEY + 5] == "token";
    assert OccursAt(Lower(LATE_KEY), SENSITIVE_WORDS[2], MAX_KEY);
    var cut := Cut(LATE_KEY, MAX_KEY);
    assert cut == Filler();
    forall i, at | 0 <= i < |SENSITIVE_WORDS| && 0 <= at <= |cut| - |SENSITIVE_WORDS[i]|
      ensures !OccursAt(Lower(cut), SENSITIVE_WORDS[i], at)
    {
      assert Lower(cut)[at] == 'x' && SENSITIVE_WORDS[i][0] != 'x';
    }
  }

  /** Five levels down, a key that turns sensitive after its hundredth character is first redacted and then truncated. */
  lemma SanitizingTwiceCanDiffer()
    ensures SanitizeAuditMetadata(SanitizeAuditMetadata(UNSETTLED)) != SanitizeAuditMetadata(UNSETTLED)
  {
    LateKeyIsSensitiveOnlyAsAWhole();
    var deepest := Object([Entry(LATE_KEY, Null)]);
    assert Kept(deepest.entries, 0);
    NestingKeepsUnsettled(4, deepest);
    SanitizingTwiceIsOnceIffSettled(UNSETTLED, 0);
  }

  lemma {:induction false} NestingKeepsUnsettled(levels: nat, inner: Value)
    requires levels <= MAX_DEPTH && !Settles(inner, MAX_DEPTH) && !Sensitive("a")
    ensures !Settles(Nested(levels, inner), MAX_DEPTH - levels)
  {
    if levels > 0 {
      NestingKeepsUnsettled(levels - 1, inner);
      assert Kept(Nested(levels, inner).entries, 0);
    }
  }
}
