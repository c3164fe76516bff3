/** What the backend does with each e-mail the poller delivers
    (`_on_new_email` in backend/src/main.py): store it, record its
    identifier as processed, then broadcast it to the subscribers. The
    three calls report failure by their return values, which the callback
    ignores, so each runs whatever the previous one did. */
module Pipeline {
  import opened Base
  import opened Records
  import Storage
  import Monitor
  import Hub

  /** Whether the read and the write of the messages document succeed, for one save. */
  datatype Io = Io(readOk: bool, writeOk: bool)

  /** `_on_new_email`. `save_email` stamps `saved_at` into the caller's
      record, so the e-mail broadcast is the stamped one. */
  method OnNewEmail(e: Email, now: string, store: Storage.StorageManager, hub: Hub.WebSocketServer,
                    saveIo: Io, uidIo: Io, closed: set<Hub.ClientId>) returns (event: Hub.Event)
    modifies store, hub
    ensures var stamped := Storage.StampSavedAt(e, now);
      && event == Hub.Announced(Hub.NewEmailEnvelope(stamped), |old(hub.clients) - closed|)
      && hub.clients == old(hub.clients) - closed
      && store.emails == (if saveIo.readOk && saveIo.writeOk && old(store.emails).Some?
                          then Some(Storage.AfterSaveEmail(old(store.emails).value, stamped))
                          else old(store.emails))
      && store.processedUids == (if uidIo.readOk && old(store.processedUids).Some?
                                    && (e.id in old(store.processedUids).value || uidIo.writeOk)
                                 then Some(Storage.AfterSaveUid(old(store.processedUids).value, e.id))
                                 else old(store.processedUids))
      && store.activities == old(store.activities)
  {
    var saved, stamped := store.SaveEmail(e, now, saveIo.readOk, saveIo.writeOk);
    var marked := store.SaveProcessedUid(e.id, uidIo.readOk, uidIo.writeOk);
    event := hub.BroadcastNewEmail(stamped, closed);
  }

  /** When the e-mail save succeeds, the stored list ends with the very
      record that is broadcast, and that record carries `saved_at`. */
  lemma StoredIsBroadcast(emails: seq<Email>, e: Email, now: string)
    ensures var stamped := Storage.StampSavedAt(e, now);
      var stored := Storage.AfterSaveEmail(emails, stamped);
      && stored != [] && stored[|stored| - 1] == Hub.NewEmailEnvelope(stamped).email
      && stored[|stored| - 1].savedAt.Some?
      && |stored| <= Storage.MaxEmails
  {
    Storage.AppendThenKeepLast(emails, Storage.StampSavedAt(e, now), Storage.MaxEmails);
  }

  /** Once its identifier is recorded, an e-mail is never delivered again by
      a poller whose processed set is restored from the store (backend/src/main.py
      seeds it from `get_processed_uids` at start-up), whatever the search returns. */
  lemma RecordedIsNotRedelivered(uids: seq<string>, e: Email, cands: seq<Monitor.Candidate>,
                                 codec: Monitor.Codec)
    ensures var seen := Elements(Storage.AfterSaveUid(uids, e.id));
      e.id !in Elements(Monitor.Ids(Monitor.Dedup(cands, seen, codec).emails))
  {
    Storage.SaveUidIdempotent(uids, e.id);
    Monitor.DedupDelivers(cands, Elements(Storage.AfterSaveUid(uids, e.id)), codec);
  }
}
