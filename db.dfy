/**
 * The two database tables the core touches: the `session` record that drives the stage machine,
 * and the `llmCache` table of responses keyed by prompt hash. Only the operations the core uses
 * are modelled: find by id, partial update by id, find by key and create.
 */
module Db {
  import opened Wrappers
  import opened Types
  import opened LlmErrors

  type Id = string
  type Key = string

  /** The session `status` column. `Unrecognized` stands for any value outside the six the
      controller knows, which its `default` branch reports. */
  datatype Status =
    | Init
    | Clarifying
    | Planning
    | Building
    | Completed
    | Failed
    | Unrecognized(name: string)

  /** The columns of a session that the core reads or writes; `Null` in a JSON column and
      `None` in `error` are SQL nulls. */
  datatype Session = Session(
    id: Id,
    prompt: string,
    status: Status,
    clarification: Json,
    plan: Json,
    code: Json,
    error: Option<string>,
    retries: int)

  /** The `data` argument of `prisma.session.update`: the columns to overwrite. */
  datatype Patch = Patch(
    status: Option<Status>,
    clarification: Option<Json>,
    plan: Option<Json>,
    code: Option<Json>,
    error: Option<string>,
    retries: Option<int>)

  const NoChange := Patch(None, None, None, None, None, None)

  function StatusPatch(status: Status): Patch {
    NoChange.(status := Some(status))
  }

  /** `{ status: 'FAILED', error: message }`, the write of every catch block. */
  function FailurePatch(message: string): Patch {
    NoChange.(status := Some(Failed), error := Some(message))
  }

  /** Applies a partial update: named columns take the new value, the others keep theirs. */
  function Patched(s: Session, p: Patch): (t: Session)
    ensures t.id == s.id && t.prompt == s.prompt
    ensures p.status.Some? ==> t.status == p.status.value
    ensures p.status.None? ==> t.status == s.status
    ensures t.clarification == p.clarification.GetOr(s.clarification)
    ensures t.plan == p.plan.GetOr(s.plan)
    ensures t.code == p.code.GetOr(s.code)
    ensures t.error == (if p.error.Some? then p.error else s.error)
    ensures t.retries == p.retries.GetOr(s.retries)
  {
    s.(status := p.status.GetOr(s.status),
       clarification := p.clarification.GetOr(s.clarification),
       plan := p.plan.GetOr(s.plan),
       code := p.code.GetOr(s.code),
       error := if p.error.Some? then p.error else s.error,
       retries := p.retries.GetOr(s.retries))
  }

  /** `p` then `q` as one update: a column `q` names takes `q`'s value, any other keeps `p`'s. */
  function Then(p: Patch, q: Patch): Patch {
    Patch(if q.status.Some? then q.status else p.status,
          if q.clarification.Some? then q.clarification else p.clarification,
          if q.plan.Some? then q.plan else p.plan,
          if q.code.Some? then q.code else p.code,
          if q.error.Some? then q.error else p.error,
          if q.retries.Some? then q.retries else p.retries)
  }

  /** An update that names no column leaves the session as it was. */
  lemma NoChangeKeeps(s: Session)
    ensures Patched(s, NoChange) == s
  {
  }

  /** Two updates in a row are the one update `Then(p, q)`: the later one wins on every
      column it names. */
  lemma LaterPatchWins(s: Session, p: Patch, q: Patch)
    ensures Patched(Patched(s, p), q) == Patched(s, Then(p, q))
  {
  }

  /** A second failure write overwrites the first one's message. */
  lemma FailureOverwrites(m: map<Id, Session>, id: Id, first: string, second: string)
    requires id in m
    ensures Updated(Updated(m, id, FailurePatch(first)), id, FailurePatch(second)) == Updated(m, id, FailurePatch(second))
  {
    LaterPatchWins(m[id], FailurePatch(first), FailurePatch(second));
    assert Then(FailurePatch(first), FailurePatch(second)) == FailurePatch(second);
  }

  /** What an update does to the table when the id is present. */
  function Updated(sessions: map<Id, Session>, id: Id, p: Patch): (m: map<Id, Session>)
    requires id in sessions
    ensures m.Keys == sessions.Keys
    ensures m[id] == Patched(sessions[id], p)
    ensures forall other :: other in sessions && other != id ==> m[other] == sessions[other]
  {
    sessions[id := Patched(sessions[id], p)]
  }

  /** Prisma's `update` throws when no row has the id. */
  const RecordNotFound := PlainError("Record to update not found.")

  class Store {
    var sessions: map<Id, Session>

    constructor(sessions: map<Id, Session>)
      ensures this.sessions == sessions
    {
      this.sessions := sessions;
    }

    /** `prisma.session.findUnique({ where: { id } })`. */
    method Find(id: Id) returns (s: Option<Session>)
      ensures s.Some? <==> id in sessions
      ensures s.Some? ==> s.value == sessions[id]
    {
      if id in sessions {
        s := Some(sessions[id]);
      } else {
        s := None;
      }
    }

    /** `prisma.session.update({ where: { id }, data: p })`; `found` false is the throw. */
    method Update(id: Id, p: Patch) returns (found: bool)
      modifies this
      ensures found == (id in old(sessions))
      ensures found ==> sessions == Updated(old(sessions), id, p)
      ensures !found ==> sessions == old(sessions)
    {
      found := id in sessions;
      if found {
        sessions := sessions[id := Patched(sessions[id], p)];
      }
    }
  }

  /** A row of `llmCache`: the response stored under a prompt hash and the model that gave it. */
  datatype CacheEntry = CacheEntry(response: Json, model: string)

  class Cache {
    var entries: map<Key, CacheEntry>

    constructor(entries: map<Key, CacheEntry>)
      ensures this.entries == entries
    {
      this.entries := entries;
    }

    /** `prisma.llmCache.findUnique({ where: { promptHash } })`. */
    method Lookup(key: Key) returns (e: Option<CacheEntry>)
      ensures e.Some? <==> key in entries
      ensures e.Some? ==> e.value == entries[key]
    {
      if key in entries {
        e := Some(entries[key]);
      } else {
        e := None;
      }
    }

    /** `prisma.llmCache.create(...)`; `promptHash` is the unique key, and the core only
        creates a row right after a lookup of the same key missed. */
    method Insert(key: Key, e: CacheEntry)
      requires key !in entries
      modifies this
      ensures entries == old(entries)[key := e]
    {
      entries := entries[key := e];
    }
  }

  /** Every cached entry of `c` is still in `c'`, unchanged: rows are written once. */
  predicate Extends(c: map<Key, CacheEntry>, c': map<Key, CacheEntry>) {
    forall k :: k in c ==> k in c' && c'[k] == c[k]
  }

  /**
   * The agreement between a session's status and its payload columns: a status is only
   * reached once the outputs of the stages before it are stored, and a failed session says why.
   */
  predicate Consistent(s: Session) {
    && (s.status == Clarifying || s.status == Planning ==> s.clarification != Null)
    && (s.status == Building ==> s.clarification != Null && s.plan != Null)
    && (s.status == Completed ==> s.clarification != Null && s.plan != Null && s.code != Null)
    && (s.status == Failed ==> s.error.Some?)
  }

  /** The table invariant: each row is stored under its own id and is consistent. */
  predicate AllConsistent(m: map<Id, Session>) {
    forall id :: id in m ==> m[id].id == id && Consistent(m[id])
  }

  /** `t` is `s` marked failed with a reason; its payload columns are untouched. */
  predicate FailedFrom(s: Session, t: Session) {
    && t.status == Failed && t.error.Some?
    && t.id == s.id && t.prompt == s.prompt
    && t.clarification == s.clarification && t.plan == s.plan && t.code == s.code
  }

  /** The only change from `m` to `m'` is that session `sid` may have been marked failed. */
  predicate FailOnly(m: map<Id, Session>, m': map<Id, Session>, sid: Id) {
    && m.Keys == m'.Keys
    && forall id :: id in m ==> m'[id] == m[id] || (id == sid && FailedFrom(m[id], m'[id]))
  }

  lemma FailOnlyTransitive(a: map<Id, Session>, b: map<Id, Session>, c: map<Id, Session>, sid: Id)
    requires FailOnly(a, b, sid) && FailOnly(b, c, sid)
    ensures FailOnly(a, c, sid)
  {
  }

  /** Marking a session failed keeps the table invariant. */
  lemma FailOnlyKeepsConsistent(m: map<Id, Session>, m': map<Id, Session>, sid: Id)
    requires AllConsistent(m) && FailOnly(m, m', sid)
    ensures AllConsistent(m')
  {
  }

  /** A failure write, with or without a retry count, only marks that session failed. */
  lemma FailureWriteFailsOnly(m: map<Id, Session>, id: Id, message: string, retries: Option<int>)
    requires id in m
    ensures FailOnly(m, Updated(m, id, FailurePatch(message).(retries := retries)), id)
  {
  }

  /** Every session other than `sid` is unchanged from `m` to `m'`, and no row is added or
      removed. */
  predicate OthersUnchanged(m: map<Id, Session>, m': map<Id, Session>, sid: Id) {
    && m.Keys == m'.Keys
    && forall id :: id in m && id != sid ==> m'[id] == m[id]
  }

  /** A stage that only touches its own session keeps the table invariant as long as what it
      leaves in that session is consistent. */
  lemma ConsistentAfter(m: map<Id, Session>, m': map<Id, Session>, sid: Id)
    requires AllConsistent(m) && OthersUnchanged(m, m', sid)
    requires sid in m' ==> m'[sid].id == sid && Consistent(m'[sid])
    ensures AllConsistent(m')
  {
  }
}
