/** The activity tracker (lib/activity-tracking.ts): an append-only log of
    activities kept in memory, with the per-lead feed, the reconstructed
    status history, windowed statistics, stale-lead detection and the
    conversion funnel derived from it. The clock, generated ids and cutoff
    instants are parameters; timestamps are integer milliseconds. */
module Activities {
  import opened Util
  import opened LeadTypes

  /** Milliseconds in a day (`1000 * 60 * 60 * 24`). */
  const DayMs: int := 86400000

  datatype ActivityType =
    StatusChange | NoteAdded | ContactAttempt | EmailSent | CallMade | MeetingScheduled

  datatype Activity = Activity(
    id: string,
    leadId: string,
    kind: ActivityType,
    description: string,
    oldValue: Option<string>,
    newValue: Option<string>,
    timestamp: int,
    userId: Option<string>)

  /** The channel of a contact attempt. */
  datatype ContactMethod = ByEmail | ByPhone | ByLinkedIn

  function ContactMethodName(m: ContactMethod): string {
    match m
    case ByEmail => "email"
    case ByPhone => "phone"
    case ByLinkedIn => "linkedin"
  }

  // ---------------------------------------------------------------------
  // Descriptions written by the convenience trackers

  function StatusChangeDescription(oldStatus: Status, newStatus: Status): string {
    "Status changed from " + StatusName(oldStatus) + " to " + StatusName(newStatus)
  }

  /** `Contact attempt via <method>`, followed by `: <notes>` only when the
      notes are present and non-empty. */
  function ContactAttemptDescription(m: ContactMethod, notes: Option<string>): (d: string)
    ensures "Contact attempt via " + ContactMethodName(m) <= d
    ensures |d| > 20 + |ContactMethodName(m)| <==> notes.Some? && notes.value != ""
    ensures notes.Some? && notes.value != "" ==> d[20 + |ContactMethodName(m)|..] == ": " + notes.value
    ensures !(notes.Some? && notes.value != "") ==> d == "Contact attempt via " + ContactMethodName(m)
  {
    "Contact attempt via " + ContactMethodName(m)
    + (if notes.Some? && notes.value != "" then ": " + notes.value else "")
  }

  const NotePrefix := "Note added: "

  /** The longest note stored in full. */
  const NoteLimit := 100

  /** `Note added: ` followed by the first 100 characters of the note, with
      `...` appended exactly when characters were cut off. */
  function NoteDescription(note: string): (d: string)
    ensures NotePrefix <= d
    ensures |note| <= NoteLimit ==> d[|NotePrefix|..] == note
    ensures |note| > NoteLimit ==>
      d[|NotePrefix|..] == note[..NoteLimit] + "..." && |d| == |NotePrefix| + NoteLimit + 3
    ensures |d| <= |NotePrefix| + NoteLimit + 3
  {
    NotePrefix + (if |note| > NoteLimit then note[..NoteLimit] else note)
    + (if |note| > NoteLimit then "..." else "")
  }

  /** Reading the note back out of a stored description. */
  function NoteText(d: string): Option<string> {
    if NotePrefix <= d then Some(d[|NotePrefix|..]) else None
  }

  /** Notes of at most 100 characters survive a round trip through their
      description; longer ones come back as their first 100 characters and
      the ellipsis, so the truncation loses exactly the tail. */
  lemma NoteRoundTrip(note: string)
    ensures |note| <= NoteLimit ==> NoteText(NoteDescription(note)) == Some(note)
    ensures |note| > NoteLimit ==> NoteText(NoteDescription(note)) == Some(note[..NoteLimit] + "...")
  {
  }

  // ---------------------------------------------------------------------
  // The per-lead feed: filter, then a stable sort newest first

  /** Timestamps never increase along the sequence. */
  predicate NewestFirst(s: seq<Activity>) {
    forall i, j :: 0 <= i < j < |s| ==> s[i].timestamp >= s[j].timestamp
  }

  /** Places `a` before the first entry that is not newer than it, so among
      equal timestamps it lands first. */
  function InsertNewestFirst(a: Activity, s: seq<Activity>): (r: seq<Activity>)
    requires NewestFirst(s)
    ensures NewestFirst(r)
    ensures multiset(r) == multiset(s) + multiset{a}
  {
    if s == [] || a.timestamp >= s[0].timestamp then
      NewestInFront(a, s);
      [a] + s
    else
      var rest := InsertNewestFirst(a, s[1..]);
      assert s == [s[0]] + s[1..];
      InsertNewestFirstStep(a, s, rest);
      [s[0]] + rest
  }

  /** An activity at least as new as the head of a newest-first sequence can
      go in front of it. */
  lemma NewestInFront(a: Activity, s: seq<Activity>)
    requires NewestFirst(s)
    requires s == [] || a.timestamp >= s[0].timestamp
    ensures NewestFirst([a] + s)
  {
    var r := [a] + s;
    forall i, j | 0 <= i < j < |r|
      ensures r[i].timestamp >= r[j].timestamp
    {
      assert r[j] == s[j - 1];
      if i > 0 {
        assert r[i] == s[i - 1];
      } else {
        assert s[0].timestamp >= s[j - 1].timestamp || j == 1;
      }
    }
  }

  /** The head of a newest-first sequence is at least as new as every entry. */
  lemma NewestAtHead(s: seq<Activity>)
    requires NewestFirst(s) && s != []
    ensures forall a :: a in s ==> a.timestamp <= s[0].timestamp
  {
    forall a | a in s
      ensures a.timestamp <= s[0].timestamp
    {
      var k :| 0 <= k < |s| && s[k] == a;
      assert k == 0 || s[0].timestamp >= s[k].timestamp;
    }
  }

  /** The inductive step of `InsertNewestFirst`: an entry newer than both the
      inserted activity and the rest of the sequence can go in front. */
  lemma InsertNewestFirstStep(a: Activity, s: seq<Activity>, rest: seq<Activity>)
    requires s != [] && NewestFirst(s) && a.timestamp < s[0].timestamp
    requires NewestFirst(rest) && multiset(rest) == multiset(s[1..]) + multiset{a}
    ensures NewestFirst([s[0]] + rest)
  {
    forall x | x in rest
      ensures x.timestamp <= s[0].timestamp
    {
      assert x in multiset(rest);
      if x != a {
        assert x in multiset(s[1..]);
        var k :| 0 <= k < |s[1..]| && s[1..][k] == x;
        assert s[k + 1] == x;
      }
    }
    var r := [s[0]] + rest;
    forall i, j | 0 <= i < j < |r|
      ensures r[i].timestamp >= r[j].timestamp
    {
      assert r[j] == rest[j - 1];
      if i > 0 {
        assert r[i] == rest[i - 1];
      }
    }
  }

  /** The stable sort by descending timestamp (`sort((a, b) => b - a)`):
      entries with equal timestamps keep their log order. */
  function SortNewestFirst(s: seq<Activity>): (r: seq<Activity>)
    ensures NewestFirst(r)
    ensures multiset(r) == multiset(s)
    ensures |r| == |s|
  {
    if s == [] then []
    else
      assert s == [s[0]] + s[1..];
      InsertNewestFirst(s[0], SortNewestFirst(s[1..]))
  }

  /** The activities stamped exactly at `t`. */
  function StampedAt(t: int): Activity -> bool {
    (a: Activity) => a.timestamp == t
  }

  /** Inserting `a` puts it ahead of every entry with its own timestamp and
      leaves the order among the other entries alone. */
  lemma {:induction false} InsertNewestFirstTies(a: Activity, s: seq<Activity>, t: int)
    requires NewestFirst(s)
    ensures Filter(InsertNewestFirst(a, s), StampedAt(t)) ==
      (if a.timestamp == t then [a] + Filter(s, StampedAt(t)) else Filter(s, StampedAt(t)))
  {
    if s == [] || a.timestamp >= s[0].timestamp {
      assert ([a] + s)[1..] == s;
    } else {
      var rest := InsertNewestFirst(a, s[1..]);
      InsertNewestFirstTies(a, s[1..], t);
      assert ([s[0]] + rest)[1..] == rest;
    }
  }

  /** The sort is stable: among activities with the same timestamp it keeps
      the input order, as `Array.prototype.sort` does. */
  lemma {:induction false} SortNewestFirstStable(s: seq<Activity>, t: int)
    ensures Filter(SortNewestFirst(s), StampedAt(t)) == Filter(s, StampedAt(t))
  {
    if s != [] {
      SortNewestFirstStable(s[1..], t);
      InsertNewestFirstTies(s[0], SortNewestFirst(s[1..]), t);
    }
  }

  predicate BelongsTo(a: Activity, leadId: string) { a.leadId == leadId }

  /** `getLeadActivities`: the lead's activities, newest first. */
  function LeadActivities(log: seq<Activity>, leadId: string): (r: seq<Activity>)
    ensures NewestFirst(r)
    ensures multiset(r) == multiset(Filter(log, (a: Activity) => BelongsTo(a, leadId)))
    ensures forall a :: a in r <==> a in log && a.leadId == leadId
  {
    var mine := Filter(log, (a: Activity) => BelongsTo(a, leadId));
    FilterMembers(log, (a: Activity) => BelongsTo(a, leadId));
    var r := SortNewestFirst(mine);
    assert forall a :: a in r <==> a in mine by {
      forall a ensures a in r <==> a in mine {
        assert a in r <==> a in multiset(r);
      }
    }
    r
  }

  /** A lead's activities sharing one timestamp appear in log order. */
  lemma LeadActivitiesTiesInLogOrder(log: seq<Activity>, leadId: string, t: int)
    ensures Filter(LeadActivities(log, leadId), StampedAt(t)) ==
      Filter(Filter(log, (a: Activity) => BelongsTo(a, leadId)), StampedAt(t))
  {
    SortNewestFirstStable(Filter(log, (a: Activity) => BelongsTo(a, leadId)), t);
  }

  /** Filtering keeps a newest-first sequence newest first. */
  lemma {:induction false} FilterNewestFirst(s: seq<Activity>, p: Activity -> bool)
    requires NewestFirst(s)
    ensures NewestFirst(Filter(s, p))
  {
    if s != [] {
      FilterNewestFirst(s[1..], p);
      FilterMembers(s[1..], p);
    }
  }

  // ---------------------------------------------------------------------
  // Status history

  /** One entry of `statusHistory`. */
  datatype StatusEntry = StatusEntry(status: string, timestamp: int, duration: Option<int>)

  datatype LeadTimeline = LeadTimeline(
    leadId: string, activities: seq<Activity>, statusHistory: seq<StatusEntry>)

  /** `Math.ceil(ms / (1000 * 60 * 60 * 24))`: whole days, rounded up (also
      for negative gaps; Dafny's `/` floors for a positive divisor). */
  function CeilDays(ms: int): (days: int)
    ensures (days - 1) * 86400000 < ms <= days * 86400000
  {
    -((-ms) / 86400000)
  }

  predicate IsStatusChange(a: Activity) { a.kind == StatusChange }

  /** `if (change.oldValue)`: present and not the empty string. */
  predicate HasOldValue(a: Activity) { a.oldValue.Some? && a.oldValue.value != "" }

  /** The status changes whose old status the history can use, in feed order. */
  function LoggedChanges(feed: seq<Activity>): (r: seq<Activity>)
    ensures forall a :: a in r ==> HasOldValue(a) && IsStatusChange(a)
    ensures forall i :: 0 <= i < |r| ==> HasOldValue(r[i])
  {
    FilterMembers(feed, IsStatusChange);
    FilterMembers(Filter(feed, IsStatusChange), HasOldValue);
    Filter(Filter(feed, IsStatusChange), HasOldValue)
  }

  /** Nothing else is dropped: the logged changes are, in feed order and with
      every occurrence, exactly the status changes carrying an old value. */
  lemma LoggedChangesExactly(feed: seq<Activity>)
    ensures IsSubsequence(LoggedChanges(feed), feed)
    ensures forall a :: a in LoggedChanges(feed) <==> a in feed && IsStatusChange(a) && HasOldValue(a)
    ensures forall a :: multiset(LoggedChanges(feed))[a] == (if IsStatusChange(a) && HasOldValue(a) then multiset(feed)[a] else 0)
  {
    FilterFilterKeeps(feed, IsStatusChange, HasOldValue);
  }

  /** The history entry a logged change contributes: its old status, at its
      own timestamp. */
  function ChangeEntry(a: Activity): StatusEntry
    requires HasOldValue(a)
  {
    StatusEntry(a.oldValue.value, a.timestamp, None)
  }

  function CurrentEntry(lead: Lead): StatusEntry {
    StatusEntry(StatusName(lead.status), lead.updated_at, None)
  }

  /** Entries for a sequence of logged changes, in the same order. */
  function ChangeEntries(changes: seq<Activity>): (r: seq<StatusEntry>)
    requires forall i :: 0 <= i < |changes| ==> HasOldValue(changes[i])
    ensures |r| == |changes|
    ensures forall i :: 0 <= i < |changes| ==> r[i] == ChangeEntry(changes[i])
  {
    seq(|changes|, i requires 0 <= i < |changes| => ChangeEntry(changes[i]))
  }

  /** Appending a logged change appends its entry. */
  lemma ChangeEntriesSnoc(changes: seq<Activity>, a: Activity)
    requires forall i :: 0 <= i < |changes| ==> HasOldValue(changes[i])
    requires HasOldValue(a)
    ensures ChangeEntries(changes + [a]) == ChangeEntries(changes) + [ChangeEntry(a)]
  {
    var c := changes + [a];
    assert forall i :: 0 <= i < |changes| ==> c[i] == changes[i];
  }

  /** The status points before durations: the current status first, then the
      old status of each logged change, newest first. */
  function NewestPoints(lead: Lead, feed: seq<Activity>): (p: seq<StatusEntry>)
    ensures |p| == 1 + |LoggedChanges(feed)|
    ensures p[0] == CurrentEntry(lead)
    ensures forall i :: 1 <= i < |p| ==> p[i] == ChangeEntry(LoggedChanges(feed)[i - 1])
  {
    [CurrentEntry(lead)] + ChangeEntries(LoggedChanges(feed))
  }

  /** Entry `k` lasts the day-ceiling of the time elapsed since entry `k - 1`. */
  predicate LastsSincePrevious(h: seq<StatusEntry>, k: int)
    requires 0 < k < |h|
  {
    h[k].duration == Some(CeilDays(h[k].timestamp - h[k - 1].timestamp))
  }

  /** The first entry has no duration; every later one carries the
      day-ceiling of the time elapsed since the entry before it. */
  predicate GapDurations(h: seq<StatusEntry>) {
    && (|h| > 0 ==> h[0].duration == None)
    && forall k :: 0 < k < |h| ==> LastsSincePrevious(h, k)
  }

  /** The status history in chronological order. The first entry has no
      duration; every later one carries the day-ceiling of the time since the
      entry before it. The last entry is the current status at `updated_at`;
      the earlier ones are the old statuses of the logged changes, oldest
      first. */
  function StatusHistory(lead: Lead, feed: seq<Activity>): (h: seq<StatusEntry>)
    ensures |h| == 1 + |LoggedChanges(feed)|
    ensures h[|h| - 1].status == StatusName(lead.status)
    ensures h[|h| - 1].timestamp == lead.updated_at
    ensures forall k {:trigger h[k].status} :: 0 <= k < |h| - 1 ==>
      LoggedChanges(feed)[|h| - 2 - k].oldValue == Some(h[k].status)
    ensures forall k {:trigger h[k].timestamp} :: 0 <= k < |h| - 1 ==>
      h[k].timestamp == LoggedChanges(feed)[|h| - 2 - k].timestamp
    ensures GapDurations(h)
  {
    ChronologicalHistory(lead, feed);
    ChronologyGaps(NewestPoints(lead, feed));
    Chronology(NewestPoints(lead, feed))
  }

  /** The newest-first points in chronological order, with durations. */
  function Chronology(p: seq<StatusEntry>): (h: seq<StatusEntry>)
    ensures |h| == |p|
  {
    seq(|p|, k requires 0 <= k < |p| => Chronological(p, k))
  }

  /** The entries `Chronological` builds keep the statuses and timestamps of
      the points in reverse: the current status last, the logged old statuses
      oldest first before it. */
  lemma ChronologicalHistory(lead: Lead, feed: seq<Activity>)
    ensures var h := Chronology(NewestPoints(lead, feed));
      && |h| == 1 + |LoggedChanges(feed)|
      && h[|h| - 1].status == StatusName(lead.status)
      && h[|h| - 1].timestamp == lead.updated_at
      && (forall k {:trigger h[k].status} :: 0 <= k < |h| - 1 ==>
            LoggedChanges(feed)[|h| - 2 - k].oldValue == Some(h[k].status))
      && (forall k {:trigger h[k].timestamp} :: 0 <= k < |h| - 1 ==>
            h[k].timestamp == LoggedChanges(feed)[|h| - 2 - k].timestamp)
  {
    var changes := LoggedChanges(feed);
    ChronologyOfChanges(CurrentEntry(lead), changes);
    var h := Chronology(NewestPoints(lead, feed));
    assert h == Chronology([CurrentEntry(lead)] + ChangeEntries(changes));
    var n := |changes|;
    forall k {:trigger h[k].timestamp} | 0 <= k < n
      ensures h[k].timestamp == changes[n - 1 - k].timestamp
    {
    }
  }

  /** The chronology of a current entry followed by the entries of some
      logged changes, newest first: the changes' old statuses oldest first,
      then the current entry. */
  lemma ChronologyOfChanges(current: StatusEntry, changes: seq<Activity>)
    requires forall i :: 0 <= i < |changes| ==> HasOldValue(changes[i])
    ensures var h, n := Chronology([current] + ChangeEntries(changes)), |changes|;
      && |h| == n + 1
      && h[n].status == current.status && h[n].timestamp == current.timestamp
      && (forall k {:trigger h[k].status} :: 0 <= k < n ==>
            changes[n - 1 - k].oldValue == Some(h[k].status))
      && (forall k {:trigger h[k].timestamp} :: 0 <= k < n ==>
            h[k].timestamp == changes[n - 1 - k].timestamp)
  {
    var p := [current] + ChangeEntries(changes);
    var h, n := Chronology(p), |changes|;
    assert h[n] == Chronological(p, n);
    forall k | 0 <= k < n
      ensures changes[n - 1 - k].oldValue == Some(h[k].status)
      ensures h[k].timestamp == changes[n - 1 - k].timestamp
    {
      ChronologyEntry(current, changes, k);
    }
  }

  /** Entry `k` of that chronology is the old status of the logged change `k`
      places from the oldest. */
  lemma ChronologyEntry(current: StatusEntry, changes: seq<Activity>, k: nat)
    requires forall i :: 0 <= i < |changes| ==> HasOldValue(changes[i])
    requires k < |changes|
    ensures var h, n := Chronology([current] + ChangeEntries(changes)), |changes|;
      && changes[n - 1 - k].oldValue == Some(h[k].status)
      && h[k].timestamp == changes[n - 1 - k].timestamp
  {
    var p := [current] + ChangeEntries(changes);
    var i := |changes| - k;
    assert p[i] == ChangeEntries(changes)[i - 1];
    assert Chronology(p)[k] == Chronological(p, k);
  }

  /** Each chronological entry's duration is the gap to the entry before. */
  lemma ChronologyGaps(p: seq<StatusEntry>)
    ensures GapDurations(Chronology(p))
  {
    var h := Chronology(p);
    if |p| > 0 {
      assert h[0] == Chronological(p, 0);
    }
    forall k | 0 < k < |h|
      ensures LastsSincePrevious(h, k)
    {
      ChronologyGap(p, k);
    }
  }

  /** Entry `k` of the chronology lasts from entry `k - 1` to itself. */
  lemma ChronologyGap(p: seq<StatusEntry>, k: nat)
    requires 0 < k < |p|
    ensures LastsSincePrevious(Chronology(p), k)
  {
    var h := Chronology(p);
    var n := |p|;
    var e, prev := Chronological(p, k), Chronological(p, k - 1);
    assert h[k] == e && h[k - 1] == prev;
    var gap := p[n - 1 - k].timestamp - p[n - k].timestamp;
    assert e.timestamp - prev.timestamp == gap;
  }

  /** Entry `k` of the chronological history built from newest-first points. */
  function Chronological(p: seq<StatusEntry>, k: nat): (e: StatusEntry)
    requires k < |p|
    ensures e.status == p[|p| - 1 - k].status && e.timestamp == p[|p| - 1 - k].timestamp
    ensures k == 0 ==> e.duration == None
    ensures k > 0 ==> e.duration == Some(CeilDays(p[|p| - 1 - k].timestamp - p[|p| - k].timestamp))
  {
    var n := |p|;
    if k == 0 then p[n - 1].(duration := None)
    else p[n - 1 - k].(duration := Some(CeilDays(p[n - 1 - k].timestamp - p[n - k].timestamp)))
  }

  /** Durations written the way `getLeadTimeline` does, on the newest-first
      points: every entry but the oldest gets the day-ceiling of the gap to
      the next older one. */
  function WithDurations(p: seq<StatusEntry>): (q: seq<StatusEntry>)
    ensures |q| == |p|
  {
    seq(|p|, k requires 0 <= k < |p| => DurationEntry(p, k))
  }

  /** Entry `k` of `WithDurations(p)`: every point but the last lasts until
      the point after it. */
  function DurationEntry(p: seq<StatusEntry>, k: nat): StatusEntry
    requires k < |p|
  {
    if k < |p| - 1 then p[k].(duration := Some(CeilDays(p[k].timestamp - p[k + 1].timestamp)))
    else p[k]
  }

  /** On points that carry no durations yet, computing durations newest
      first and then reversing gives the entries `Chronological` builds. */
  lemma ReversedDurations(p: seq<StatusEntry>)
    requires forall i :: 0 <= i < |p| ==> p[i].duration == None
    ensures Reverse(WithDurations(p)) == Chronology(p)
  {
    var r, h := Reverse(WithDurations(p)), Chronology(p);
    forall k | 0 <= k < |p|
      ensures r[k] == h[k]
    {
      ReversedEntry(p, k);
    }
  }

  /** Entry `k` of the reversed newest-first durations is entry `k` of the
      chronology. */
  lemma ReversedEntry(p: seq<StatusEntry>, k: nat)
    requires forall i :: 0 <= i < |p| ==> p[i].duration == None
    requires k < |p|
    ensures Reverse(WithDurations(p))[k] == Chronology(p)[k]
  {
    var n := |p|;
    var q := WithDurations(p);
    var i := n - 1 - k;
    assert Reverse(q)[k] == q[i];
    assert Chronology(p)[k] == Chronological(p, k);
    if k == 0 {
      assert q[i] == p[i];
    } else {
      assert q[i] == p[i].(duration := Some(CeilDays(p[i].timestamp - p[i + 1].timestamp)));
    }
  }

  /** Computing durations newest first and then reversing gives the
      chronological history. */
  lemma ReversedDurationsAreHistory(lead: Lead, feed: seq<Activity>)
    ensures Reverse(WithDurations(NewestPoints(lead, feed))) == StatusHistory(lead, feed)
  {
    ReversedDurations(NewestPoints(lead, feed));
  }

  /** With a newest-first feed the reconstructed history is chronological
      except possibly for the final, current entry: the old statuses appear
      with non-decreasing timestamps. */
  lemma {:induction false} HistoryChronological(lead: Lead, feed: seq<Activity>)
    requires NewestFirst(feed)
    ensures var h := StatusHistory(lead, feed);
      forall i, j :: 0 <= i < j < |h| - 1 ==> h[i].timestamp <= h[j].timestamp
  {
    FilterNewestFirst(feed, IsStatusChange);
    FilterNewestFirst(Filter(feed, IsStatusChange), HasOldValue);
  }

  /** A lead currently `replied` whose feed holds one change out of
      `contacted`: two entries, `contacted` at the change's timestamp with no
      duration, then `replied` at `updated_at`, lasting the day-ceiling of the
      gap between the two instants. */
  lemma SingleChangeTimeline(lead: Lead, change: Activity)
    requires lead.status == Replied
    requires change.kind == StatusChange && change.oldValue == Some("contacted")
    ensures var h := StatusHistory(lead, [change]);
      && |h| == 2
      && h[0] == StatusEntry("contacted", change.timestamp, None)
      && h[1] == StatusEntry("replied", lead.updated_at,
                             Some(CeilDays(lead.updated_at - change.timestamp)))
  {
    assert Filter([change], IsStatusChange) == [change];
    assert Filter([change], HasOldValue) == [change];
  }

  // ---------------------------------------------------------------------
  // Windowed statistics

  datatype ActivityStats = ActivityStats(
    totalActivities: nat,
    statusChanges: nat,
    contactAttempts: nat,
    notesAdded: nat,
    activitiesByDay: map<int, nat>,
    activitiesByType: map<ActivityType, nat>)

  /** The UTC calendar day an instant falls on (the date part of
      `toISOString()`), as a day number since the epoch. */
  function DayKey(timestamp: int): int {
    timestamp / DayMs
  }

  /** The activities at or after `start`, in log order. */
  function RecentActivities(log: seq<Activity>, start: int): (r: seq<Activity>)
    ensures forall a :: a in r <==> a in log && a.timestamp >= start
    ensures IsSubsequence(r, log)
    ensures forall a :: multiset(r)[a] == (if a.timestamp >= start then multiset(log)[a] else 0)
  {
    FilterMultiset(log, (a: Activity) => a.timestamp >= start);
    FilterSubsequence(log, (a: Activity) => a.timestamp >= start);
    FilterMembers(log, (a: Activity) => a.timestamp >= start);
    Filter(log, (a: Activity) => a.timestamp >= start)
  }

  /** How many activities of kind `k` there are. */
  function CountKind(s: seq<Activity>, k: ActivityType): (n: nat)
    ensures n <= |s|
  {
    if s == [] then 0
    else CountKind(s[..|s| - 1], k) + (if s[|s| - 1].kind == k then 1 else 0)
  }

  /** How many activities fall on day `d`. */
  function CountDay(s: seq<Activity>, d: int): (n: nat)
    ensures n <= |s|
  {
    if s == [] then 0
    else CountDay(s[..|s| - 1], d) + (if DayKey(s[|s| - 1].timestamp) == d then 1 else 0)
  }

  /** The per-type dictionary of `getActivityStats`, one bump per activity. */
  function KindTally(s: seq<Activity>): map<ActivityType, nat> {
    if s == [] then map[] else Bump(KindTally(s[..|s| - 1]), s[|s| - 1].kind)
  }

  /** The per-day dictionary of `getActivityStats`, one bump per activity. */
  function DayTally(s: seq<Activity>): map<int, nat> {
    if s == [] then map[] else Bump(DayTally(s[..|s| - 1]), DayKey(s[|s| - 1].timestamp))
  }

  /** The per-type dictionary holds exactly the kinds that occur, each with
      its number of activities, and its counts add up to the whole window. */
  lemma {:induction false} KindTallyCounts(s: seq<Activity>)
    ensures forall k :: k in KindTally(s) <==> CountKind(s, k) > 0
    ensures forall k :: k in KindTally(s) ==> KindTally(s)[k] == CountKind(s, k)
    ensures MapSum(KindTally(s)) == |s|
  {
    if s != [] {
      var init := s[..|s| - 1];
      KindTallyCounts(init);
      MapSumIncrement(KindTally(init), s[|s| - 1].kind);
    }
  }

  /** The per-day dictionary holds exactly the days with activity, each with
      its number of activities, and its counts add up to the whole window. */
  lemma {:induction false} DayTallyCounts(s: seq<Activity>)
    ensures forall d :: d in DayTally(s) <==> CountDay(s, d) > 0
    ensures forall d :: d in DayTally(s) ==> DayTally(s)[d] == CountDay(s, d)
    ensures MapSum(DayTally(s)) == |s|
  {
    if s != [] {
      var init := s[..|s| - 1];
      DayTallyCounts(init);
      MapSumIncrement(DayTally(init), DayKey(s[|s| - 1].timestamp));
    }
  }

  /** Counts of three distinct kinds never exceed the number of activities. */
  lemma {:induction false} ThreeKindsBounded(s: seq<Activity>)
    ensures CountKind(s, StatusChange) + CountKind(s, ContactAttempt) + CountKind(s, NoteAdded) <= |s|
  {
    if s != [] {
      ThreeKindsBounded(s[..|s| - 1]);
    }
  }

  // ---------------------------------------------------------------------
  // Stale leads

  /** `find` of the first contact attempt; in a newest-first feed that is the
      most recent one. */
  function FirstContactAttempt(feed: seq<Activity>): (r: Option<Activity>)
    ensures r.None? <==> forall a :: a in feed ==> a.kind != ContactAttempt
    ensures r.Some? ==> r.value in feed && r.value.kind == ContactAttempt
    ensures r.Some? && NewestFirst(feed) ==>
      forall a :: a in feed && a.kind == ContactAttempt ==> a.timestamp <= r.value.timestamp
  {
    if feed == [] then None
    else if feed[0].kind == ContactAttempt then
      assert NewestFirst(feed) ==> forall a :: a in feed ==> a.timestamp <= feed[0].timestamp by {
        if NewestFirst(feed) {
          NewestAtHead(feed);
        }
      }
      Some(feed[0])
    else
      assert forall a :: a in feed ==> a == feed[0] || a in feed[1..];
      assert NewestFirst(feed) ==> NewestFirst(feed[1..]);
      FirstContactAttempt(feed[1..])
  }

  /** The filter of `getStaleLeads` for one lead. */
  predicate IsStale(log: seq<Activity>, lead: Lead, cutoff: int) {
    if lead.status == Prospect then false
    else match FirstContactAttempt(LeadActivities(log, lead.id))
      case None => lead.contacted_at.Some? && lead.contacted_at.value < cutoff
      case Some(last) => last.timestamp < cutoff
  }

  predicate IsAttemptOn(a: Activity, lead: Lead) {
    a.leadId == lead.id && a.kind == ContactAttempt
  }

  /** Staleness without reference to sorting: a lead other than a prospect is
      stale when it has contact attempts and all of them are before the
      cutoff, or when it has none and was contacted before the cutoff. A lead
      with neither attempts nor a contact date is never stale. */
  lemma StaleCharacterised(log: seq<Activity>, lead: Lead, cutoff: int)
    ensures IsStale(log, lead, cutoff) <==>
      lead.status != Prospect
      && (if exists a :: a in log && IsAttemptOn(a, lead)
          then forall a :: a in log && IsAttemptOn(a, lead) ==> a.timestamp < cutoff
          else lead.contacted_at.Some? && lead.contacted_at.value < cutoff)
  {
    var feed := LeadActivities(log, lead.id);
    assert forall a :: a in feed <==> a in log && a.leadId == lead.id;
  }

  /** `getStaleLeads`: the stale leads, in input order. */
  function StaleLeads(log: seq<Activity>, leads: seq<Lead>, cutoff: int): (r: seq<Lead>)
    ensures IsSubsequence(r, leads)
    ensures forall l :: l in r <==> l in leads && IsStale(log, l, cutoff)
    ensures forall l :: l in r ==> l.status != Prospect
    ensures forall l :: multiset(r)[l] == (if IsStale(log, l, cutoff) then multiset(leads)[l] else 0)
  {
    FilterMultiset(leads, (l: Lead) => IsStale(log, l, cutoff));
    FilterSubsequence(leads, (l: Lead) => IsStale(log, l, cutoff));
    FilterMembers(leads, (l: Lead) => IsStale(log, l, cutoff));
    Filter(leads, (l: Lead) => IsStale(log, l, cutoff))
  }

  // ---------------------------------------------------------------------
  // Conversion funnel

  datatype ConversionRates = ConversionRates(
    prospectToContacted: real, contactedToReplied: real,
    repliedToConverted: real, overallConversion: real)

  datatype ConversionFunnel = ConversionFunnel(
    prospects: nat, contacted: nat, replied: nat, converted: nat,
    total: nat, conversionRates: ConversionRates)

  function CountStatus(leads: seq<Lead>, st: Status): (n: nat)
    ensures n <= |leads|
  {
    Count(leads, (l: Lead) => l.status == st)
  }

  /** Every lead has exactly one of the five statuses. */
  lemma {:induction false} StatusCountsPartition(leads: seq<Lead>)
    ensures CountStatus(leads, Prospect) + CountStatus(leads, Contacted)
      + CountStatus(leads, Replied) + CountStatus(leads, Converted)
      + CountStatus(leads, Rejected) == |leads|
  {
    if leads != [] {
      StatusCountsPartition(leads[1..]);
      CountStatusCons(leads, Prospect);
      CountStatusCons(leads, Contacted);
      CountStatusCons(leads, Replied);
      CountStatusCons(leads, Converted);
      CountStatusCons(leads, Rejected);
    }
  }

  /** Counting one status peels off the first lead. */
  lemma CountStatusCons(leads: seq<Lead>, st: Status)
    requires leads != []
    ensures CountStatus(leads, st) == CountStatus(leads[1..], st) + (if leads[0].status == st then 1 else 0)
  {
    CountCons(leads, (l: Lead) => l.status == st);
  }

  /** `(part / whole) * 100`, or 0 when `whole` is 0. */
  function Percent(part: nat, whole: nat): (r: real)
    ensures whole == 0 ==> r == 0.0
    ensures 0.0 <= r
    ensures part <= whole ==> r <= 100.0
    ensures whole > 0 ==> r * whole as real == part as real * 100.0
  {
    if whole > 0 then (part as real / whole as real) * 100.0 else 0.0
  }

  /** `getConversionFunnel`: counts per funnel status, a total that leaves
      rejected leads out, and four percentages that are 0 whenever their
      denominator is. */
  function GetConversionFunnel(leads: seq<Lead>): (f: ConversionFunnel)
    ensures f.prospects == CountStatus(leads, Prospect)
    ensures f.contacted == CountStatus(leads, Contacted)
    ensures f.replied == CountStatus(leads, Replied)
    ensures f.converted == CountStatus(leads, Converted)
    ensures f.total == f.prospects + f.contacted + f.replied + f.converted
    ensures f.total + CountStatus(leads, Rejected) == |leads|
    ensures 0.0 <= f.conversionRates.prospectToContacted <= 100.0
    ensures 0.0 <= f.conversionRates.overallConversion <= 100.0
    ensures 0.0 <= f.conversionRates.contactedToReplied
    ensures 0.0 <= f.conversionRates.repliedToConverted
    ensures f.total == 0 ==>
      f.conversionRates.prospectToContacted == 0.0 && f.conversionRates.overallConversion == 0.0
    ensures f.contacted == 0 ==> f.conversionRates.contactedToReplied == 0.0
    ensures f.replied == 0 ==> f.conversionRates.repliedToConverted == 0.0
    ensures f.conversionRates == ConversionRates(
      Percent(f.contacted, f.total), Percent(f.replied, f.contacted),
      Percent(f.converted, f.replied), Percent(f.converted, f.total))
  {
    var prospects := CountStatus(leads, Prospect);
    var contacted := CountStatus(leads, Contacted);
    var replied := CountStatus(leads, Replied);
    var converted := CountStatus(leads, Converted);
    var total := prospects + contacted + replied + converted;
    StatusCountsPartition(leads);
    ConversionFunnel(prospects, contacted, replied, converted, total,
      ConversionRates(
        Percent(contacted, total),
        Percent(replied, contacted),
        Percent(converted, replied),
        Percent(converted, total)))
  }

  /** An empty lead list gives all-zero counts and rates. */
  lemma EmptyFunnel()
    ensures GetConversionFunnel([]) ==
      ConversionFunnel(0, 0, 0, 0, 0, ConversionRates(0.0, 0.0, 0.0, 0.0))
  {
  }

  // ---------------------------------------------------------------------
  // The tracker object

  /** The first loop of `getLeadTimeline`: the current status, then the old
      status of every status change that has one, in feed order. */
  method CollectPoints(lead: Lead, changes: seq<Activity>) returns (history: seq<StatusEntry>)
    ensures history == PointsOf(lead, changes)
  {
    history := [CurrentEntry(lead)];
    assert changes[..0] == [];
    var j := 0;
    while j < |changes|
      invariant 0 <= j <= |changes|
      invariant history == PointsOf(lead, changes[..j])
    {
      var change := changes[j];
      PointsStep(lead, changes, j);
      if change.oldValue.Some? && change.oldValue.value != "" {
        history := history + [StatusEntry(change.oldValue.value, change.timestamp, None)];
      }
      j := j + 1;
    }
    assert changes[..j] == changes;
  }

  /** The current status, then one entry per change with an old status, in
      the order of `changes`. */
  function PointsOf(lead: Lead, changes: seq<Activity>): (p: seq<StatusEntry>)
    ensures |p| == 1 + |Filter(changes, HasOldValue)|
  {
    [CurrentEntry(lead)] + ChangeEntries(Filter(changes, HasOldValue))
  }

  /** One more change adds an entry exactly when it has an old status. */
  lemma PointsStep(lead: Lead, changes: seq<Activity>, j: nat)
    requires j < |changes|
    ensures HasOldValue(changes[j]) ==>
      PointsOf(lead, changes[..j + 1]) == PointsOf(lead, changes[..j]) + [ChangeEntry(changes[j])]
    ensures !HasOldValue(changes[j]) ==>
      PointsOf(lead, changes[..j + 1]) == PointsOf(lead, changes[..j])
  {
    KeptStep(changes, j);
    var kept := Filter(changes[..j], HasOldValue);
    if HasOldValue(changes[j]) {
      ChangeEntriesSnoc(kept, changes[j]);
      var e := ChangeEntries(kept);
      assert [CurrentEntry(lead)] + (e + [ChangeEntry(changes[j])])
          == [CurrentEntry(lead)] + e + [ChangeEntry(changes[j])];
    }
  }

  /** One more change of the feed keeps one more logged change exactly when
      it has an old status. */
  lemma KeptStep(changes: seq<Activity>, j: nat)
    requires j < |changes|
    ensures HasOldValue(changes[j]) ==>
      Filter(changes[..j + 1], HasOldValue) == Filter(changes[..j], HasOldValue) + [changes[j]]
    ensures !HasOldValue(changes[j]) ==>
      Filter(changes[..j + 1], HasOldValue) == Filter(changes[..j], HasOldValue)
  {
    var change := changes[j];
    FilterAppend(changes[..j], [change], HasOldValue);
    assert changes[..j + 1] == changes[..j] + [change];
    if HasOldValue(change) {
      assert Filter([change], HasOldValue) == [change];
    } else {
      assert Filter([change], HasOldValue) == [];
      assert Filter(changes[..j], HasOldValue) + [] == Filter(changes[..j], HasOldValue);
    }
  }

  /** The `forEach` of `getActivityStats`: per-day and per-type counting
      dictionaries, built in one pass. */
  method Tally(recent: seq<Activity>) returns (byDay: map<int, nat>, byType: map<ActivityType, nat>)
    ensures byDay == DayTally(recent) && byType == KindTally(recent)
  {
    byDay, byType := map[], map[];
    var i := 0;
    while i < |recent|
      invariant 0 <= i <= |recent|
      invariant byDay == DayTally(recent[..i]) && byType == KindTally(recent[..i])
    {
      var a := recent[i];
      assert recent[..i + 1][..i] == recent[..i];
      byDay := Bump(byDay, DayKey(a.timestamp));
      byType := Bump(byType, a.kind);
      i := i + 1;
    }
    assert recent[..i] == recent;
  }

  /** The second loop of `getLeadTimeline`: walking the newest-first points,
      each one but the oldest gets the day-ceiling of the gap to the next. */
  method FillDurations(points: seq<StatusEntry>) returns (history: seq<StatusEntry>)
    ensures history == WithDurations(points)
  {
    history := points;
    var i := 0;
    while i < |history| - 1
      invariant 0 <= i <= |points|
      invariant |history| == |points|
      invariant forall k :: 0 <= k < i ==> history[k] == DurationEntry(points, k)
      invariant forall k :: i <= k < |points| ==> history[k] == points[k]
    {
      var current := history[i];
      var next := history[i + 1];
      history := history[i := current.(duration := Some(CeilDays(current.timestamp - next.timestamp)))];
      assert history[i] == DurationEntry(points, i);
      i := i + 1;
    }
    assert |points| > 0 ==> history[|points| - 1] == DurationEntry(points, |points| - 1);
  }

  class ActivityTracker {
    /** The log, oldest first; only ever appended to. */
    var activities: seq<Activity>

    constructor ()
      ensures activities == []
    {
      activities := [];
    }

    /** `trackActivity`: append one activity carrying the given fields, the
        generated id and the current time. */
    method TrackActivity(
      leadId: string, kind: ActivityType, description: string,
      oldValue: Option<string>, newValue: Option<string>, userId: Option<string>,
      id: string, now: int)
      returns (a: Activity)
      modifies this
      ensures a == Activity(id, leadId, kind, description, oldValue, newValue, now, userId)
      ensures activities == old(activities) + [a]
    {
      a := Activity(id, leadId, kind, description, oldValue, newValue, now, userId);
      activities := activities + [a];
    }

    method TrackStatusChange(leadId: string, oldStatus: Status, newStatus: Status, id: string, now: int)
      returns (a: Activity)
      modifies this
      ensures a == Activity(id, leadId, StatusChange, StatusChangeDescription(oldStatus, newStatus),
                            Some(StatusName(oldStatus)), Some(StatusName(newStatus)), now, None)
      ensures activities == old(activities) + [a]
    {
      a := TrackActivity(leadId, StatusChange, StatusChangeDescription(oldStatus, newStatus),
                         Some(StatusName(oldStatus)), Some(StatusName(newStatus)), None, id, now);
    }

    method TrackContactAttempt(leadId: string, m: ContactMethod, notes: Option<string>, id: string, now: int)
      returns (a: Activity)
      modifies this
      ensures a == Activity(id, leadId, ContactAttempt, ContactAttemptDescription(m, notes),
                            None, None, now, None)
      ensures activities == old(activities) + [a]
    {
      a := TrackActivity(leadId, ContactAttempt, ContactAttemptDescription(m, notes),
                         None, None, None, id, now);
    }

    method TrackNoteAdded(leadId: string, note: string, id: string, now: int)
      returns (a: Activity)
      modifies this
      ensures a == Activity(id, leadId, NoteAdded, NoteDescription(note), None, None, now, None)
      ensures activities == old(activities) + [a]
    {
      a := TrackActivity(leadId, NoteAdded, NoteDescription(note), None, None, None, id, now);
    }

    method GetLeadActivities(leadId: string) returns (r: seq<Activity>)
      ensures r == LeadActivities(activities, leadId)
    {
      r := LeadActivities(activities, leadId);
    }

    /** `getLeadTimeline`: collect the status points newest first, write each
        one's duration from the gap to the next older point, then reverse. */
    method GetLeadTimeline(leadId: string, lead: Lead) returns (t: LeadTimeline)
      ensures t.leadId == leadId
      ensures t.activities == LeadActivities(activities, leadId)
      ensures t.statusHistory == StatusHistory(lead, t.activities)
    {
      var feed := LeadActivities(activities, leadId);
      var changes := Filter(feed, IsStatusChange);

      var points := CollectPoints(lead, changes);
      assert points == NewestPoints(lead, feed);
      var history := FillDurations(points);
      ReversedDurationsAreHistory(lead, feed);
      t := LeadTimeline(leadId, feed, Reverse(history));
    }

    /** `getActivityStats` for the window starting at `start`. */
    method GetActivityStats(start: int) returns (s: ActivityStats)
      ensures var recent := RecentActivities(activities, start);
        && s.totalActivities == |recent|
        && s.statusChanges == CountKind(recent, StatusChange)
        && s.contactAttempts == CountKind(recent, ContactAttempt)
        && s.notesAdded == CountKind(recent, NoteAdded)
        && (forall k :: k in s.activitiesByType <==> CountKind(recent, k) > 0)
        && (forall k :: k in s.activitiesByType ==> s.activitiesByType[k] == CountKind(recent, k))
        && (forall d :: d in s.activitiesByDay <==> CountDay(recent, d) > 0)
        && (forall d :: d in s.activitiesByDay ==> s.activitiesByDay[d] == CountDay(recent, d))
      ensures MapSum(s.activitiesByType) == s.totalActivities
      ensures MapSum(s.activitiesByDay) == s.totalActivities
      ensures s.statusChanges + s.contactAttempts + s.notesAdded <= s.totalActivities
    {
      var recent := RecentActivities(activities, start);
      var byDay, byType := Tally(recent);
      KindTallyCounts(recent);
      DayTallyCounts(recent);
      ThreeKindsBounded(recent);
      s := ActivityStats(|recent|, CountKind(recent, StatusChange), CountKind(recent, ContactAttempt),
                         CountKind(recent, NoteAdded), byDay, byType);
    }

    /** `getStaleLeads` with the cutoff instant given. */
    method GetStaleLeads(leads: seq<Lead>, cutoff: int) returns (r: seq<Lead>)
      ensures r == StaleLeads(activities, leads, cutoff)
    {
      r := StaleLeads(activities, leads, cutoff);
    }
  }
}
