/** The persistence layer (backend/src/storage_manager.py): two JSON documents,
    the messages document `{processed_uids, emails}` and the schedule document
    `{activities}`, each read in full and written back in full by every
    mutator.

    The documents are the fields of `StorageManager`. Whether a read or a
    write of the file succeeds is an input of each operation: a failed read
    yields the empty dict `{}`, and a failed write leaves the file, and so the
    fields, as they were and makes the operation return `false`. A key can
    be missing from a document: an existing file may lack it, and a clear
    after a failed read writes a document holding only the cleared key.
    `None` records that. */
module Storage {
  import opened Base
  import opened Json
  import opened Records

  /** Only this many e-mails are kept. */
  const MaxEmails: nat := 1000
  /** Only this many processed identifiers are kept. */
  const MaxProcessedUids: nat := 10000

  /** `s[-n:]` applied when `s` has grown past `n`: the newest `n` entries. */
  function KeepLast<T>(s: seq<T>, n: nat): seq<T> {
    if |s| > n then s[|s| - n..] else s
  }

  /** Appending and then trimming keeps the new entry, in last place, drops
      only the oldest entries, and never leaves more than `n`. */
  lemma AppendThenKeepLast<T>(s: seq<T>, x: T, n: nat)
    requires n >= 1
    ensures var r := KeepLast(s + [x], n);
      && |r| <= n
      && r[|r| - 1] == x
      && (|s| < n ==> r == s + [x])
      && (|s| >= n ==> |r| == n && r == s[|s| - n + 1..] + [x])
  {
  }

  /** The e-mail list after `save_email` has stored `e`. */
  function AfterSaveEmail(emails: seq<Email>, e: Email): seq<Email> {
    KeepLast(emails + [e], MaxEmails)
  }

  /** `saved_at` is stamped only when absent; nothing else of the record changes. */
  function StampSavedAt(e: Email, now: string): (r: Email)
    ensures r.savedAt == if e.savedAt.Some? then e.savedAt else Some(now)
    ensures r.(savedAt := e.savedAt) == e
  {
    if e.savedAt.None? then e.(savedAt := Some(now)) else e
  }

  /** Saving into a full list drops exactly the oldest e-mail. */
  lemma SaveIntoFullListDropsOldest(emails: seq<Email>, e: Email)
    requires |emails| == MaxEmails
    ensures AfterSaveEmail(emails, e) == emails[1..] + [e]
  {
    AppendThenKeepLast(emails, e, MaxEmails);
  }

  /** The identifier list after `save_processed_uid(uid)`. */
  function AfterSaveUid(uids: seq<string>, uid: string): seq<string> {
    if uid in uids then uids else KeepLast(uids + [uid], MaxProcessedUids)
  }

  /** Saving an identifier twice is saving it once. */
  lemma SaveUidIdempotent(uids: seq<string>, uid: string)
    ensures uid in AfterSaveUid(uids, uid)
    ensures AfterSaveUid(AfterSaveUid(uids, uid), uid) == AfterSaveUid(uids, uid)
  {
    if uid !in uids {
      AppendThenKeepLast(uids, uid, MaxProcessedUids);
      var r := AfterSaveUid(uids, uid);
      assert r[|r| - 1] == uid;
    }
  }

  /** A list without repetitions stays without repetitions. */
  lemma {:induction false} SaveUidKeepsDistinct(uids: seq<string>, uid: string)
    requires NoDuplicates(uids)
    ensures NoDuplicates(AfterSaveUid(uids, uid))
  {
    if uid !in uids {
      var s := uids + [uid];
      assert NoDuplicates(s) by {
        forall i, j | 0 <= i < j < |s| ensures s[i] != s[j] {
          if j == |uids| {
            assert s[i] == uids[i];
          } else {
            assert s[i] == uids[i] && s[j] == uids[j];
          }
        }
      }
      var r := KeepLast(s, MaxProcessedUids);
      var d := |s| - |r|;
      assert r == s[d..];
      forall i, j | 0 <= i < j < |r| ensures r[i] != r[j] {
        assert r[i] == s[d + i] && r[j] == s[d + j];
      }
    }
  }

  /** Python's `s[start:]`; a negative start counts from the end. */
  function SliceFrom<T>(s: seq<T>, start: int): seq<T> {
    var b := if start < 0 then (if |s| + start < 0 then 0 else |s| + start)
             else (if start > |s| then |s| else start);
    s[b..]
  }

  /** `get_recent_emails(limit)` over the stored list: `emails[-limit:] if emails else []`. */
  function RecentEmails(emails: seq<Email>, limit: int): seq<Email> {
    if emails == [] then [] else SliceFrom(emails, -limit)
  }

  function Min(a: int, b: int): int {
    if a < b then a else b
  }

  /** A positive limit gives the newest `min(limit, n)` e-mails in order; a
      zero limit gives the whole list (`-0` is `0`); a negative limit drops
      that many of the oldest. */
  lemma RecentEmailsAreNewest(emails: seq<Email>, limit: int)
    ensures limit >= 1 ==> RecentEmails(emails, limit) == emails[|emails| - Min(limit, |emails|)..]
    ensures limit == 0 ==> RecentEmails(emails, limit) == emails
    ensures limit < 0 ==> RecentEmails(emails, limit) == emails[Min(-limit, |emails|)..]
  {
  }

  /** The index of the first activity whose `id` equals `id`. */
  function FirstWithId(acts: seq<Activity>, id: Json): (r: Option<nat>)
    ensures r.Some? ==> r.value < |acts| && IdOf(acts[r.value]) == id
    ensures r.Some? ==> forall j :: 0 <= j < r.value ==> IdOf(acts[j]) != id
    ensures r.None? ==> forall j :: 0 <= j < |acts| ==> IdOf(acts[j]) != id
  {
    if acts == [] then None
    else if IdOf(acts[0]) == id then Some(0)
    else match FirstWithId(acts[1..], id)
      case None => None
      case Some(k) => Some(k + 1)
  }

  /** `activity.update(updated_data)` followed by the `updated_at` stamp. */
  function Merged(a: Activity, updates: map<string, Json>, now: string): Activity {
    (a + updates)["updated_at" := JStr(now)]
  }

  /** The activity list `update_activity` writes, or `None` when no id matches. */
  function UpdatedActivities(acts: seq<Activity>, id: Json, updates: map<string, Json>, now: string)
    : Option<seq<Activity>>
  {
    match FirstWithId(acts, id)
    case None => None
    case Some(i) => Some(acts[i := Merged(acts[i], updates, now)])
  }

  /** Only the first record with the id changes: it takes every given field
      and a fresh `updated_at`, keeps its other fields, and every other record
      stays as it was. Without a match nothing is written. */
  lemma UpdateTouchesOnlyFirstMatch(acts: seq<Activity>, id: Json, updates: map<string, Json>, now: string)
    ensures UpdatedActivities(acts, id, updates, now).None? <==> forall j :: 0 <= j < |acts| ==> IdOf(acts[j]) != id
    ensures UpdatedActivities(acts, id, updates, now).Some? ==>
      var r := UpdatedActivities(acts, id, updates, now).value;
      var i := FirstWithId(acts, id).value;
      && |r| == |acts|
      && (forall j :: 0 <= j < |acts| && j != i ==> r[j] == acts[j])
      && r[i]["updated_at"] == JStr(now)
      && (forall k :: k in updates && k != "updated_at" ==> k in r[i] && r[i][k] == updates[k])
      && (forall k :: k in acts[i] && k !in updates && k != "updated_at" ==> k in r[i] && r[i][k] == acts[i][k])
      && r[i].Keys == acts[i].Keys + updates.Keys + {"updated_at"}
  {
  }

  /** `[a for a in activities if a.get('id') != activity_id]`. */
  function WithoutId(acts: seq<Activity>, id: Json): seq<Activity> {
    if acts == [] then []
    else (if IdOf(acts[0]) == id then [] else [acts[0]]) + WithoutId(acts[1..], id)
  }

  /** Filtering distributes over concatenation, so the kept records stay in order. */
  lemma {:induction false} WithoutIdAppend(a: seq<Activity>, b: seq<Activity>, id: Json)
    ensures WithoutId(a + b, id) == WithoutId(a, id) + WithoutId(b, id)
  {
    if a == [] {
      assert a + b == b;
    } else {
      assert (a + b)[0] == a[0];
      assert (a + b)[1..] == a[1..] + b;
      WithoutIdAppend(a[1..], b, id);
    }
  }

  /** Exactly the records without the id survive, and the list is shorter
      exactly when some record had the id. */
  lemma {:induction false} WithoutIdContents(acts: seq<Activity>, id: Json)
    ensures forall x :: x in WithoutId(acts, id) <==> x in acts && IdOf(x) != id
    ensures |WithoutId(acts, id)| <= |acts|
    ensures |WithoutId(acts, id)| < |acts| <==> exists j :: 0 <= j < |acts| && IdOf(acts[j]) == id
  {
    if acts != [] {
      WithoutIdContents(acts[1..], id);
      assert acts == [acts[0]] + acts[1..];
      if IdOf(acts[0]) != id {
        assert (exists j :: 0 <= j < |acts| && IdOf(acts[j]) == id) ==>
          (exists j :: 0 <= j < |acts[1..]| && IdOf(acts[1..][j]) == id) by {
          if exists j :: 0 <= j < |acts| && IdOf(acts[j]) == id {
            var j :| 0 <= j < |acts| && IdOf(acts[j]) == id;
            assert j > 0 && IdOf(acts[1..][j - 1]) == id;
          }
        }
      }
    }
  }

  class StorageManager {
    /** The `emails` key of the messages document. */
    var emails: Option<seq<Email>>
    /** The `processed_uids` key of the messages document. */
    var processedUids: Option<seq<string>>
    /** The `activities` key of the schedule document. */
    var activities: Option<seq<Activity>>

    /** `_init_files`: a file that exists keeps the keys it holds; a missing
        one is written empty, and stays missing (every key absent) when that
        write fails. */
    constructor (messagesExist: bool, storedEmails: Option<seq<Email>>, storedUids: Option<seq<string>>,
                 scheduleExists: bool, storedActivities: Option<seq<Activity>>,
                 messagesWriteOk: bool, scheduleWriteOk: bool)
      ensures emails == if messagesExist then storedEmails else if messagesWriteOk then Some([]) else None
      ensures processedUids == if messagesExist then storedUids else if messagesWriteOk then Some([]) else None
      ensures activities == if scheduleExists then storedActivities else if scheduleWriteOk then Some([]) else None
    {
      if messagesExist {
        emails, processedUids := storedEmails, storedUids;
      } else if messagesWriteOk {
        emails, processedUids := Some([]), Some([]);
      } else {
        emails, processedUids := None, None;
      }
      if scheduleExists {
        activities := storedActivities;
      } else if scheduleWriteOk {
        activities := Some([]);
      } else {
        activities := None;
      }
    }

    /** `save_email`: stamps the caller's record (even when the save then
        fails), appends it and keeps the newest 1000. */
    method SaveEmail(email: Email, now: string, readOk: bool, writeOk: bool) returns (ok: bool, stamped: Email)
      modifies this
      ensures stamped == StampSavedAt(email, now)
      ensures ok <==> readOk && old(emails).Some? && writeOk
      ensures emails == if ok then Some(AfterSaveEmail(old(emails).value, stamped)) else old(emails)
      ensures processedUids == old(processedUids) && activities == old(activities)
    {
      stamped := StampSavedAt(email, now);
      if !readOk || emails.None? {
        // `data['emails']` raises KeyError on the empty document
        return false, stamped;
      }
      var updated := emails.value + [stamped];
      if |updated| > MaxEmails {
        updated := updated[|updated| - MaxEmails..];
      }
      if writeOk {
        emails := Some(updated);
      }
      ok := writeOk;
    }

    /** `get_all_emails`: the stored list, `[]` when absent or unreadable. */
    method GetAllEmails(readOk: bool) returns (r: seq<Email>)
      ensures r == if readOk then emails.GetOr([]) else []
    {
      r := if readOk then emails.GetOr([]) else [];
    }

    /** `get_recent_emails(limit)`. */
    method GetRecentEmails(limit: int, readOk: bool) returns (r: seq<Email>)
      ensures r == RecentEmails(if readOk then emails.GetOr([]) else [], limit)
      ensures limit >= 1 ==> |r| <= limit
      ensures forall k :: 0 <= k < |r| ==> r[k] in emails.GetOr([])
    {
      var all := GetAllEmails(readOk);
      r := RecentEmails(all, limit);
    }

    /** `clear_emails`: writes the document read with `emails = []`; after a
        failed read that document has lost `processed_uids`. */
    method ClearEmails(readOk: bool, writeOk: bool) returns (ok: bool)
      modifies this
      ensures ok == writeOk
      ensures emails == if writeOk then Some([]) else old(emails)
      ensures processedUids == if writeOk && !readOk then None else old(processedUids)
      ensures activities == old(activities)
    {
      if writeOk {
        emails := Some([]);
        if !readOk {
          processedUids := None;
        }
      }
      ok := writeOk;
    }

    /** `save_processed_uid`: a no-op returning `true` for a known id;
        otherwise append and keep the newest 10000. */
    method SaveProcessedUid(uid: string, readOk: bool, writeOk: bool) returns (ok: bool)
      modifies this
      ensures !readOk || old(processedUids).None? ==> !ok && processedUids == old(processedUids)
      ensures readOk && old(processedUids).Some? && uid in old(processedUids).value ==>
        ok && processedUids == old(processedUids)
      ensures readOk && old(processedUids).Some? && uid !in old(processedUids).value ==>
        ok == writeOk
        && processedUids == if writeOk then Some(AfterSaveUid(old(processedUids).value, uid)) else old(processedUids)
      ensures emails == old(emails) && activities == old(activities)
    {
      if !readOk || processedUids.None? {
        return false;
      }
      var uids := processedUids.value;
      if uid in uids {
        return true;
      }
      uids := uids + [uid];
      if |uids| > MaxProcessedUids {
        uids := uids[|uids| - MaxProcessedUids..];
      }
      if writeOk {
        processedUids := Some(uids);
      }
      ok := writeOk;
    }

    /** `get_processed_uids`: the stored identifiers as a set. */
    method GetProcessedUids(readOk: bool) returns (r: set<string>)
      ensures r == if readOk then Elements(processedUids.GetOr([])) else {}
    {
      r := if readOk then Elements(processedUids.GetOr([])) else {};
    }

    /** `clear_processed_uids`: the mirror image of `clear_emails`. */
    method ClearProcessedUids(readOk: bool, writeOk: bool) returns (ok: bool)
      modifies this
      ensures ok == writeOk
      ensures processedUids == if writeOk then Some([]) else old(processedUids)
      ensures emails == if writeOk && !readOk then None else old(emails)
      ensures activities == old(activities)
    {
      if writeOk {
        processedUids := Some([]);
        if !readOk {
          emails := None;
        }
      }
      ok := writeOk;
    }

    /** `save_activity`: stamps `created_at` when absent (on the caller's
        record, even if the save fails) and appends; a document without
        `activities` raises KeyError, which is caught as a failure. */
    method SaveActivity(activity: Activity, now: string, readOk: bool, writeOk: bool)
      returns (ok: bool, stamped: Activity)
      modifies this
      ensures stamped == if "created_at" in activity then activity else activity["created_at" := JStr(now)]
      ensures ok <==> readOk && old(activities).Some? && writeOk
      ensures activities == if ok then Some(old(activities).value + [stamped]) else old(activities)
      ensures emails == old(emails) && processedUids == old(processedUids)
    {
      stamped := if "created_at" in activity then activity else activity["created_at" := JStr(now)];
      if !readOk || activities.None? {
        return false, stamped;
      }
      if writeOk {
        activities := Some(activities.value + [stamped]);
      }
      ok := writeOk;
    }

    /** `get_activities`: `[]` when the read fails or the key is missing. */
    method GetActivities(readOk: bool) returns (r: seq<Activity>)
      ensures r == if readOk then activities.GetOr([]) else []
    {
      r := if readOk then activities.GetOr([]) else [];
    }

    /** `update_activity`: merges the fields into the first record with the
        id; `false` without a write when none has it. */
    method UpdateActivity(id: Json, updates: map<string, Json>, now: string, readOk: bool, writeOk: bool)
      returns (ok: bool)
      modifies this
      ensures var r := UpdatedActivities(old(activities).GetOr([]), id, updates, now);
        && (ok <==> readOk && r.Some? && writeOk)
        && activities == if ok then Some(r.value) else old(activities)
      ensures emails == old(emails) && processedUids == old(processedUids)
    {
      var acts := if readOk then activities.GetOr([]) else [];
      var i := 0;
      while i < |acts|
        invariant 0 <= i <= |acts|
        invariant forall j :: 0 <= j < i ==> IdOf(acts[j]) != id
      {
        if IdOf(acts[i]) == id {
          acts := acts[i := Merged(acts[i], updates, now)];
          if writeOk {
            activities := Some(acts);
          }
          return writeOk;
        }
        i := i + 1;
      }
      ok := false;
    }

    /** `delete_activity`: drops every record with the id; `false` without a
        write when the list did not get shorter. */
    method DeleteActivity(id: Json, readOk: bool, writeOk: bool) returns (ok: bool)
      modifies this
      ensures var r := WithoutId(old(activities).GetOr([]), id);
        && (ok <==> readOk && |r| < |old(activities).GetOr([])| && writeOk)
        && activities == if ok then Some(r) else old(activities)
      ensures emails == old(emails) && processedUids == old(processedUids)
    {
      var acts := if readOk then activities.GetOr([]) else [];
      var initialLength := |acts|;
      acts := WithoutId(acts, id);
      if |acts| < initialLength {
        if writeOk {
          activities := Some(acts);
        }
        return writeOk;
      }
      ok := false;
    }

    /** `clear_activities`: the document is just `{activities: []}`, so the
        outcome of the read does not matter. */
    method ClearActivities(writeOk: bool) returns (ok: bool)
      modifies this
      ensures ok == writeOk
      ensures activities == if writeOk then Some([]) else old(activities)
      ensures emails == old(emails) && processedUids == old(processedUids)
    {
      if writeOk {
        activities := Some([]);
      }
      ok := writeOk;
    }
  }
}
