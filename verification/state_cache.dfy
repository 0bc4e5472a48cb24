/**
  The ephemeral state store: one key-value map holding three namespaces (thread
  contexts, new-answer acquisitions, improve-answer acquisitions), kept apart by a
  key prefix per namespace. A lookup of a missing key answers None instead of failing.
 */
module Cache {
  import opened Types

  /** A value stored in the cache, tagged with the kind of state it is. */
  datatype CacheEntry =
    | ThreadEntry(context: ThreadContext)
    | AcquisitionEntry(acquisition: AnswerAcquisition)
    | ImproveEntry(improvement: ImproveAnswerAcquisition)

  type Entries = map<string, CacheEntry>

  datatype Namespace = Threads | Acquisitions | Improvements

  function Prefix(ns: Namespace): string {
    match ns
    case Threads => "THREAD_"
    case Acquisitions => "ACQUISITION_"
    case Improvements => "IMPROVE_ANSWER_ACQUISITION_"
  }

  /** The cache key of `id` in namespace `ns`. */
  function Key(ns: Namespace, id: string): string {
    Prefix(ns) + id
  }

  /** Within a namespace, distinct ids have distinct keys. */
  lemma KeyInjective(ns: Namespace, a: string, b: string)
    ensures Key(ns, a) == Key(ns, b) ==> a == b
  {
    if Key(ns, a) == Key(ns, b) {
      assert a == Key(ns, a)[|Prefix(ns)|..];
      assert b == Key(ns, b)[|Prefix(ns)|..];
    }
  }

  /** Keys of different namespaces never collide: the prefixes differ in their first character. */
  lemma KeysDisjoint(ns1: Namespace, ns2: Namespace, a: string, b: string)
    requires ns1 != ns2
    ensures Key(ns1, a) != Key(ns2, b)
  {
    assert Key(ns1, a)[0] == Prefix(ns1)[0];
    assert Key(ns2, b)[0] == Prefix(ns2)[0];
  }

  /** A key identifies exactly one (namespace, id) pair. */
  lemma KeyDetermines(ns1: Namespace, a: string, ns2: Namespace, b: string)
    ensures Key(ns1, a) == Key(ns2, b) <==> ns1 == ns2 && a == b
  {
    if ns1 != ns2 {
      KeysDisjoint(ns1, ns2, a, b);
    } else {
      KeyInjective(ns1, a, b);
    }
  }

  /** `getCachedObject`: the entry under the key, or None. */
  function Get(c: Entries, ns: Namespace, id: string): Option<CacheEntry> {
    if Key(ns, id) in c then Some(c[Key(ns, id)]) else None
  }

  function Put(c: Entries, ns: Namespace, id: string, e: CacheEntry): Entries {
    c[Key(ns, id) := e]
  }

  function Delete(c: Entries, ns: Namespace, id: string): Entries {
    c - {Key(ns, id)}
  }

  /** After a set, a get of the same id in the same namespace returns the value set. */
  lemma GetAfterPut(c: Entries, ns: Namespace, id: string, e: CacheEntry)
    ensures Get(Put(c, ns, id, e), ns, id) == Some(e)
  {
  }

  /** A set leaves every other id, in every namespace, as it was. */
  lemma GetAfterPutOther(c: Entries, ns: Namespace, id: string, e: CacheEntry, ns2: Namespace, id2: string)
    requires ns2 != ns || id2 != id
    ensures Get(Put(c, ns, id, e), ns2, id2) == Get(c, ns2, id2)
  {
    KeyDetermines(ns, id, ns2, id2);
  }

  /** After a delete, a get of that id in that namespace returns None. */
  lemma GetAfterDelete(c: Entries, ns: Namespace, id: string)
    ensures Get(Delete(c, ns, id), ns, id) == None
  {
  }

  /** A delete leaves every other id, in every namespace, as it was. */
  lemma GetAfterDeleteOther(c: Entries, ns: Namespace, id: string, ns2: Namespace, id2: string)
    requires ns2 != ns || id2 != id
    ensures Get(Delete(c, ns, id), ns2, id2) == Get(c, ns2, id2)
  {
    KeyDetermines(ns, id, ns2, id2);
  }

  /** Deleting twice is deleting once. */
  lemma DeleteIdempotent(c: Entries, ns: Namespace, id: string)
    ensures Delete(Delete(c, ns, id), ns, id) == Delete(c, ns, id)
  {
  }

  /** A later set overwrites an earlier one. */
  lemma PutOverwrites(c: Entries, ns: Namespace, id: string, e1: CacheEntry, e2: CacheEntry)
    ensures Put(Put(c, ns, id, e1), ns, id, e2) == Put(c, ns, id, e2)
  {
  }

  /** Nothing is found in a fresh cache. */
  lemma EmptyHasNothing(ns: Namespace, id: string)
    ensures Get(map[], ns, id) == None
  {
  }

  // Typed views of the three namespaces, as the getters and setters use them.

  function GetThread(c: Entries, id: string): Option<ThreadContext> {
    match Get(c, Threads, id)
    case Some(ThreadEntry(t)) => Some(t)
    case _ => None
  }

  function GetAcquisition(c: Entries, id: string): Option<AnswerAcquisition> {
    match Get(c, Acquisitions, id)
    case Some(AcquisitionEntry(a)) => Some(a)
    case _ => None
  }

  function GetImprove(c: Entries, id: string): Option<ImproveAnswerAcquisition> {
    match Get(c, Improvements, id)
    case Some(ImproveEntry(a)) => Some(a)
    case _ => None
  }

  function PutThread(c: Entries, id: string, t: ThreadContext): Entries {
    Put(c, Threads, id, ThreadEntry(t))
  }

  function PutAcquisition(c: Entries, id: string, a: AnswerAcquisition): Entries {
    Put(c, Acquisitions, id, AcquisitionEntry(a))
  }

  function PutImprove(c: Entries, id: string, a: ImproveAnswerAcquisition): Entries {
    Put(c, Improvements, id, ImproveEntry(a))
  }

  function DeleteThread(c: Entries, id: string): Entries {
    Delete(c, Threads, id)
  }

  function DeleteAcquisition(c: Entries, id: string): Entries {
    Delete(c, Acquisitions, id)
  }

  function DeleteImprove(c: Entries, id: string): Entries {
    Delete(c, Improvements, id)
  }

  /** Writes to the thread namespace leave both acquisition namespaces unchanged. */
  lemma ThreadWritesIsolated(c: Entries, id: string, t: ThreadContext, id2: string)
    ensures GetAcquisition(PutThread(c, id, t), id2) == GetAcquisition(c, id2)
    ensures GetImprove(PutThread(c, id, t), id2) == GetImprove(c, id2)
    ensures GetAcquisition(DeleteThread(c, id), id2) == GetAcquisition(c, id2)
    ensures GetImprove(DeleteThread(c, id), id2) == GetImprove(c, id2)
  {
    GetAfterPutOther(c, Threads, id, ThreadEntry(t), Acquisitions, id2);
    GetAfterPutOther(c, Threads, id, ThreadEntry(t), Improvements, id2);
    GetAfterDeleteOther(c, Threads, id, Acquisitions, id2);
    GetAfterDeleteOther(c, Threads, id, Improvements, id2);
  }

  /** Writes to the new-answer namespace leave threads and improvements unchanged. */
  lemma AcquisitionWritesIsolated(c: Entries, id: string, a: AnswerAcquisition, id2: string)
    ensures GetThread(PutAcquisition(c, id, a), id2) == GetThread(c, id2)
    ensures GetImprove(PutAcquisition(c, id, a), id2) == GetImprove(c, id2)
    ensures GetThread(DeleteAcquisition(c, id), id2) == GetThread(c, id2)
    ensures GetImprove(DeleteAcquisition(c, id), id2) == GetImprove(c, id2)
  {
    GetAfterPutOther(c, Acquisitions, id, AcquisitionEntry(a), Threads, id2);
    GetAfterPutOther(c, Acquisitions, id, AcquisitionEntry(a), Improvements, id2);
    GetAfterDeleteOther(c, Acquisitions, id, Threads, id2);
    GetAfterDeleteOther(c, Acquisitions, id, Improvements, id2);
  }

  /** Writes to the improve-answer namespace leave threads and new-answer acquisitions unchanged. */
  lemma ImproveWritesIsolated(c: Entries, id: string, a: ImproveAnswerAcquisition, id2: string)
    ensures GetThread(PutImprove(c, id, a), id2) == GetThread(c, id2)
    ensures GetAcquisition(PutImprove(c, id, a), id2) == GetAcquisition(c, id2)
    ensures GetThread(DeleteImprove(c, id), id2) == GetThread(c, id2)
    ensures GetAcquisition(DeleteImprove(c, id), id2) == GetAcquisition(c, id2)
  {
    GetAfterPutOther(c, Improvements, id, ImproveEntry(a), Threads, id2);
    GetAfterPutOther(c, Improvements, id, ImproveEntry(a), Acquisitions, id2);
    GetAfterDeleteOther(c, Improvements, id, Threads, id2);
    GetAfterDeleteOther(c, Improvements, id, Acquisitions, id2);
  }

  /** A thread write leaves the context of every other thread as it was. */
  lemma ThreadWriteKeepsOtherThreads(c: Entries, id: string, t: ThreadContext, id2: string)
    requires id2 != id
    ensures GetThread(PutThread(c, id, t), id2) == GetThread(c, id2)
    ensures GetThread(DeleteThread(c, id), id2) == GetThread(c, id2)
  {
    GetAfterPutOther(c, Threads, id, ThreadEntry(t), Threads, id2);
    GetAfterDeleteOther(c, Threads, id, Threads, id2);
  }

  /** An acquisition write leaves every other pending acquisition as it was. */
  lemma AcquisitionWriteKeepsOtherAcquisitions(c: Entries, id: string, a: AnswerAcquisition, id2: string)
    requires id2 != id
    ensures GetAcquisition(PutAcquisition(c, id, a), id2) == GetAcquisition(c, id2)
    ensures GetAcquisition(DeleteAcquisition(c, id), id2) == GetAcquisition(c, id2)
  {
    GetAfterPutOther(c, Acquisitions, id, AcquisitionEntry(a), Acquisitions, id2);
    GetAfterDeleteOther(c, Acquisitions, id, Acquisitions, id2);
  }

  /** An improvement write leaves every other pending improvement as it was. */
  lemma ImproveWriteKeepsOtherImprovements(c: Entries, id: string, a: ImproveAnswerAcquisition, id2: string)
    requires id2 != id
    ensures GetImprove(PutImprove(c, id, a), id2) == GetImprove(c, id2)
    ensures GetImprove(DeleteImprove(c, id), id2) == GetImprove(c, id2)
  {
    GetAfterPutOther(c, Improvements, id, ImproveEntry(a), Improvements, id2);
    GetAfterDeleteOther(c, Improvements, id, Improvements, id2);
  }

  /** The cache object: every setter and deleter changes its one map in place. */
  class StateCache {
    var entries: Entries

    constructor ()
      ensures entries == map[]
    {
      entries := map[];
    }

    method SetThreadState(threadId: string, threadState: ThreadContext)
      modifies this
      ensures entries == PutThread(old(entries), threadId, threadState)
    {
      entries := entries[Key(Threads, threadId) := ThreadEntry(threadState)];
    }

    method GetThreadState(threadId: string) returns (r: Option<ThreadContext>)
      ensures r == GetThread(entries, threadId)
    {
      var key := Key(Threads, threadId);
      if key in entries && entries[key].ThreadEntry? {
        r := Some(entries[key].context);
      } else {
        r := None;
      }
    }

    method DeleteThreadState(threadId: string)
      modifies this
      ensures entries == DeleteThread(old(entries), threadId)
    {
      entries := entries - {Key(Threads, threadId)};
    }

    method SetAcquisitionState(acquisitionId: string, acquisition: AnswerAcquisition)
      modifies this
      ensures entries == PutAcquisition(old(entries), acquisitionId, acquisition)
    {
      entries := entries[Key(Acquisitions, acquisitionId) := AcquisitionEntry(acquisition)];
    }

    method GetAcquisitionState(acquisitionId: string) returns (r: Option<AnswerAcquisition>)
      ensures r == GetAcquisition(entries, acquisitionId)
    {
      var key := Key(Acquisitions, acquisitionId);
      if key in entries && entries[key].AcquisitionEntry? {
        r := Some(entries[key].acquisition);
      } else {
        r := None;
      }
    }

    method DeleteAcquisitionState(acquisitionId: string)
      modifies this
      ensures entries == DeleteAcquisition(old(entries), acquisitionId)
    {
      entries := entries - {Key(Acquisitions, acquisitionId)};
    }

    method SetImproveAnswerAcquisitionState(acquisitionId: string, acquisition: ImproveAnswerAcquisition)
      modifies this
      ensures entries == PutImprove(old(entries), acquisitionId, acquisition)
    {
      entries := entries[Key(Improvements, acquisitionId) := ImproveEntry(acquisition)];
    }

    method GetImproveAnswerAcquisitionState(acquisitionId: string) returns (r: Option<ImproveAnswerAcquisition>)
      ensures r == GetImprove(entries, acquisitionId)
    {
      var key := Key(Improvements, acquisitionId);
      if key in entries && entries[key].ImproveEntry? {
        r := Some(entries[key].improvement);
      } else {
        r := None;
      }
    }

    method DeleteImproveAnswerAcquisitionState(acquisitionId: string)
      modifies this
      ensures entries == DeleteImprove(old(entries), acquisitionId)
    {
      entries := entries - {Key(Improvements, acquisitionId)};
    }
  }
}
