/** Adding or removing one tag of a book whose tags may be locked (client.go: SetBookTagScoped,
    relockBookTags): unlock, write, lock again, read back, each request free to fail before or
    after it took effect. */
module TagMutation {
  import opened Inventory

  /** The `tagsLocked` field of the metadata: missing, a boolean, or something else. */
  datatype Lock = NoLock | Lock(on: bool) | Garbled

  /** A request is done and reported, failed without effect, or failed after taking effect. */
  datatype Reply = Fine | Lost | Ambiguous

  datatype Request = ReadBook | SetLock(on: bool) | PutList(tags: seq<string>)

  datatype Exchange = Exchange(request: Request, reply: Reply)

  // ---- What a sequence of requests does to the lock ----

  /** The lock after these requests. */
  ghost function Played(lock: Lock, done: seq<Exchange>): Lock {
    if done == [] then lock
    else
      var last := done[|done| - 1];
      if last.request.SetLock? && last.reply != Lost then Lock(last.request.on) else Played(lock, done[..|done| - 1])
  }

  /** The last of these requests that was about the lock. */
  ghost function LastLock(done: seq<Exchange>): Option<Exchange> {
    if done == [] then None
    else if done[|done| - 1].request.SetLock? then Some(done[|done| - 1])
    else LastLock(done[..|done| - 1])
  }

  /** An unlock took effect. */
  ghost predicate Unlocks(done: seq<Exchange>) {
    exists k :: 0 <= k < |done| && done[k].request == SetLock(false) && done[k].reply != Lost
  }

  /** After every request to unlock there is one to lock again. */
  ghost predicate Relocks(done: seq<Exchange>) {
    forall k :: 0 <= k < |done| && done[k].request == SetLock(false) ==>
      exists j :: k < j < |done| && done[j].request == SetLock(true)
  }

  ghost predicate AllFine(done: seq<Exchange>) {
    forall k :: 0 <= k < |done| ==> done[k].reply == Fine
  }

  ghost predicate NoLocking(done: seq<Exchange>) {
    forall k :: 0 <= k < |done| ==> !done[k].request.SetLock?
  }

  lemma PlayedOn(lock: Lock, a: seq<Exchange>, e: Exchange)
    ensures Played(lock, a + [e]) == if e.request.SetLock? && e.reply != Lost then Lock(e.request.on) else Played(lock, a)
    ensures LastLock(a + [e]) == if e.request.SetLock? then Some(e) else LastLock(a)
  {
    assert (a + [e])[..|a|] == a;
  }

  lemma {:induction false} NoLockingNoChange(lock: Lock, done: seq<Exchange>)
    requires NoLocking(done)
    ensures Played(lock, done) == lock && LastLock(done).None? && !Unlocks(done) && Relocks(done)
  {
    if done != [] {
      NoLockingNoChange(lock, done[..|done| - 1]);
    }
  }

  lemma {:induction false} LastLockDecides(lock: Lock, done: seq<Exchange>)
    ensures LastLock(done).None? ==> Played(lock, done) == lock
    ensures LastLock(done).Some? ==>
              && LastLock(done).value.request.SetLock?
              && (LastLock(done).value.reply != Lost ==> Played(lock, done) == Lock(LastLock(done).value.request.on))
              && exists k :: 0 <= k < |done| && done[k] == LastLock(done).value && forall j :: k < j < |done| ==> !done[j].request.SetLock?
  {
    if done != [] {
      var front := done[..|done| - 1];
      LastLockDecides(lock, front);
      if done[|done| - 1].request.SetLock? {
        assert done[|done| - 1] == LastLock(done).value;
      } else if LastLock(front).Some? {
        var k :| 0 <= k < |front| && front[k] == LastLock(front).value && forall j :: k < j < |front| ==> !front[j].request.SetLock?;
        assert done[k] == front[k] && forall j :: k < j < |done| ==> !done[j].request.SetLock?;
      }
    }
  }

  lemma {:induction false} UnlockedByUnlocking(done: seq<Exchange>)
    requires Played(Lock(true), done) == Lock(false)
    ensures Unlocks(done)
  {
    var last := done[|done| - 1];
    if !(last.request.SetLock? && last.reply != Lost) {
      UnlockedByUnlocking(done[..|done| - 1]);
      var k :| 0 <= k < |done| - 1 && done[..|done| - 1][k].request == SetLock(false) && done[..|done| - 1][k].reply != Lost;
      assert done[k].request == SetLock(false);
    }
  }

  /** However requests fail: when every unlock is followed by a relock, tags that were locked end
      unlocked only if an unlock took effect and the last relock did not and said so. */
  lemma LeftUnlocked(done: seq<Exchange>)
    requires Relocks(done) && Played(Lock(true), done) == Lock(false)
    ensures Unlocks(done) && LastLock(done) == Some(Exchange(SetLock(true), Lost))
  {
    UnlockedByUnlocking(done);
    LastLockDecides(Lock(true), done);
    var k :| 0 <= k < |done| && done[k] == LastLock(done).value && forall j :: k < j < |done| ==> !done[j].request.SetLock?;
    assert done[k].request != SetLock(false);
  }

  /** What one tag change may do to the lock: the lock is what the requests make of it, an unlock
      is always followed by a relock, locked tags end unlocked exactly when the unlock took effect
      and the last relock did not and said so, and tags that are not locked are left so. */
  ghost predicate Tidy(before: Lock, after: Lock, done: seq<Exchange>) {
    && after == Played(before, done) && Relocks(done)
    && (before == Lock(true) ==> (after == Lock(false) <==> Unlocks(done) && LastLock(done) == Some(Exchange(SetLock(true), Lost))))
    && (before != Lock(true) ==> NoLocking(done))
  }

  lemma NothingIsTidy(lock: Lock)
    ensures Tidy(lock, lock, [])
  {
  }

  lemma TidyStaysTidy(before: Lock, after: Lock, done: seq<Exchange>, e: Exchange)
    requires Tidy(before, after, done) && !e.request.SetLock?
    ensures Tidy(before, after, done + [e])
  {
    PlayedOn(before, done, e);
    if Unlocks(done) {
      var k :| 0 <= k < |done| && done[k].request == SetLock(false) && done[k].reply != Lost;
      assert (done + [e])[k] == done[k];
    }
    if Unlocks(done + [e]) {
      var k :| 0 <= k < |done| + 1 && (done + [e])[k].request == SetLock(false) && (done + [e])[k].reply != Lost;
      assert done[k] == (done + [e])[k];
    }
    forall k | 0 <= k < |done| + 1 && (done + [e])[k].request == SetLock(false) ensures exists j :: k < j < |done| + 1 && (done + [e])[j].request == SetLock(true) {
      assert done[k] == (done + [e])[k];
      var j :| k < j < |done| && done[j].request == SetLock(true);
      assert (done + [e])[j] == done[j];
    }
  }

  ghost function Unlock(reply: Reply): Exchange { Exchange(SetLock(false), reply) }

  ghost function Relock(reply: Reply): Exchange { Exchange(SetLock(true), reply) }

  /** An unlock, the write if the unlock was reported as done, and a relock in any case. */
  ghost function Session(list: seq<string>, r1: Reply, r2: Reply, r3: Reply): seq<Exchange> {
    if r1 == Fine then [Unlock(r1), Exchange(PutList(list), r2), Relock(r3)] else [Unlock(r1), Relock(r3)]
  }

  lemma SessionIsTidy(a: seq<Exchange>, list: seq<string>, r1: Reply, r2: Reply, r3: Reply)
    requires NoLocking(a)
    ensures Tidy(Lock(true), if r3 != Lost then Lock(true) else if r1 != Lost then Lock(false) else Lock(true), a + Session(list, r1, r2, r3))
  {
    var done := a + Session(list, r1, r2, r3);
    NoLockingNoChange(Lock(true), a);
    PlayedOn(Lock(true), a, Unlock(r1));
    var b := if r1 == Fine then a + [Unlock(r1)] + [Exchange(PutList(list), r2)] else a + [Unlock(r1)];
    PlayedOn(Lock(true), a + [Unlock(r1)], Exchange(PutList(list), r2));
    PlayedOn(Lock(true), b, Relock(r3));
    assert done == b + [Relock(r3)];
    assert done[|a|] == Unlock(r1) && done[|done| - 1] == Relock(r3);
    assert forall k :: 0 <= k < |done| && done[k].request == SetLock(false) ==> k == |a|;
  }

  lemma FineIsFine(a: seq<Exchange>, list: seq<string>, r1: Reply, r2: Reply, r3: Reply)
    ensures AllFine(a + Session(list, r1, r2, r3)) ==> AllFine(a) && r1 == r2 == r3 == Fine
  {
    var done := a + Session(list, r1, r2, r3);
    if AllFine(done) {
      assert done[|a|] == Unlock(r1);
      assert done[|a| + 1] == Exchange(PutList(list), r2) && done[|a| + 2] == Relock(r3);
      forall k | 0 <= k < |a| ensures a[k].reply == Fine { assert done[k] == a[k]; }
    }
  }

  /** Surrounding white space does not count. */
  ghost predicate Trims(trim: string -> string) {
    forall s :: trim(trim(s)) == trim(s)
  }

  function NormalizedTagSet(trim: string -> string, tags: seq<string>): set<string> {
    set i | 0 <= i < |tags| && trim(tags[i]) != "" :: trim(tags[i])
  }

  function TagCount(trim: string -> string, tags: seq<string>, tag: string): nat {
    if tags == [] then 0
    else TagCount(trim, tags[1..], tag) + if trim(tags[0]) == tag then 1 else 0
  }

  function Wanted(trim: string -> string, tags: seq<string>, tag: string, present: bool): set<string> {
    if present then NormalizedTagSet(trim, tags) + {tag} else NormalizedTagSet(trim, tags) - {tag}
  }

  predicate AlreadyDesired(trim: string -> string, tags: seq<string>, tag: string, present: bool) {
    TagCount(trim, tags, tag) == if present then 1 else 0
  }

  lemma {:induction false} CountedIsMember(trim: string -> string, tags: seq<string>, tag: string)
    requires tag != ""
    ensures TagCount(trim, tags, tag) > 0 <==> tag in NormalizedTagSet(trim, tags)
  {
    if tags != [] {
      CountedIsMember(trim, tags[1..], tag);
      if tag in NormalizedTagSet(trim, tags) {
        var i :| 0 <= i < |tags| && trim(tags[i]) == tag;
        assert i > 0 ==> tags[1..][i - 1] == tags[i];
      }
      if tag in NormalizedTagSet(trim, tags[1..]) {
        var i :| 0 <= i < |tags| - 1 && trim(tags[1..][i]) == tag;
        assert tags[i + 1] == tags[1..][i];
      }
      if trim(tags[0]) == tag {
        assert tag in NormalizedTagSet(trim, tags);
      }
    }
  }

  lemma SetOfAppended(trim: string -> string, tags: seq<string>, t: string)
    requires trim(t) == t && t != ""
    ensures NormalizedTagSet(trim, tags + [t]) == NormalizedTagSet(trim, tags) + {t}
  {
    var all := tags + [t];
    assert all[|tags|] == t;
    forall x | x in NormalizedTagSet(trim, tags) ensures x in NormalizedTagSet(trim, all) {
      var i :| 0 <= i < |tags| && trim(tags[i]) == x && x != "";
      assert all[i] == tags[i];
    }
  }

  lemma {:induction false} CountAppended(trim: string -> string, tags: seq<string>, t: string, x: string)
    ensures TagCount(trim, tags + [t], x) == TagCount(trim, tags, x) + if trim(t) == x then 1 else 0
  {
    if tags == [] {
      assert ([] + [t])[1..] == [];
    } else {
      CountAppended(trim, tags[1..], t, x);
      assert (tags + [t])[1..] == tags[1..] + [t];
    }
  }

  lemma OneFewer(values: set<string>, left: set<string>, t: string)
    requires left <= values && t in left
    ensures values - (left - {t}) == (values - left) + {t}
  {
  }

  /** The list has the values that are not left, each once. */
  ghost predicate Partly(trim: string -> string, values: set<string>, left: set<string>, list: seq<string>) {
    && left <= values && NormalizedTagSet(trim, list) == values - left
    && (if list == [] then left == values else values != {})
    && forall x :: x in values ==> TagCount(trim, list, x) == if x in left then 0 else 1
  }

  lemma OneMore(trim: string -> string, values: set<string>, left: set<string>, list: seq<string>, t: string)
    requires Partly(trim, values, left, list) && t in left && trim(t) == t && t != ""
    ensures Partly(trim, values, left - {t}, list + [t])
  {
    SetOfAppended(trim, list, t);
    OneFewer(values, left, t);
    forall x | x in values ensures TagCount(trim, list + [t], x) == if x in left - {t} then 0 else 1 {
      CountAppended(trim, list, t, x);
    }
  }

  /** A tag that is already as desired leaves the tag set as it is wanted. */
  lemma DesiredIsWanted(trim: string -> string, tags: seq<string>, tag: string, present: bool)
    requires tag != "" && AlreadyDesired(trim, tags, tag, present)
    ensures NormalizedTagSet(trim, tags) == Wanted(trim, tags, tag, present)
  {
    CountedIsMember(trim, tags, tag);
  }

  class Metadata {
    const trim: string -> string
    var tags: seq<string>
    var locked: Lock
    var script: seq<Reply>
    ghost var trace: seq<Exchange>   // all requests so far and how they ended

    constructor (trim: string -> string, tags: seq<string>, locked: Lock, script: seq<Reply>)
      ensures this.trim == trim && this.tags == tags && this.locked == locked && this.script == script && trace == []
    {
      this.trim, this.tags, this.locked, this.script, trace := trim, tags, locked, script, [];
    }

    method NextReply(request: Request) returns (reply: Reply)
      modifies this`script, this`trace
      ensures trace == old(trace) + [Exchange(request, reply)]
    {
      reply := Fine;
      if script != [] {
        reply, script := script[0], script[1..];
      }
      trace := trace + [Exchange(request, reply)];
    }

    method GetBook() returns (seen: Option<(seq<string>, Lock)>, ghost reply: Reply)
      modifies this`script, this`trace
      ensures trace == old(trace) + [Exchange(ReadBook, reply)] && (seen.Some? <==> reply == Fine)
      ensures seen.Some? ==> seen.value == (tags, locked)
    {
      var answer := NextReply(ReadBook);
      return if answer == Fine then Some((tags, locked)) else None, answer;
    }

    method SetTagsLocked(on: bool) returns (ok: bool, ghost reply: Reply)
      modifies this`script, this`trace, this`locked
      ensures trace == old(trace) + [Exchange(SetLock(on), reply)] && (ok <==> reply == Fine)
      ensures locked == if reply != Lost then Lock(on) else old(locked)
    {
      var answer := NextReply(SetLock(on));
      if answer != Lost {
        locked := Lock(on);
      }
      return answer == Fine, answer;
    }

    /** Locked tags are not replaced; an empty list counts as provided only with the clear flag. */
    method PutTags(values: seq<string>, clear: bool) returns (ok: bool, ghost reply: Reply)
      modifies this`script, this`trace, this`tags
      ensures trace == old(trace) + [Exchange(PutList(values), reply)] && (ok <==> reply == Fine)
      ensures tags == old(tags) || (tags == values && locked != Lock(true))
      ensures ok && locked != Lock(true) && (values != [] || clear) ==> tags == values
    {
      var answer := NextReply(PutList(values));
      if answer != Lost && locked != Lock(true) && (values != [] || clear) {
        tags := values;
      }
      return answer == Fine, answer;
    }

    /** The set as a list, each tag once. */
    method Listed(values: set<string>) returns (list: seq<string>)
      requires Trims(trim) && forall t :: t in values ==> t != "" && trim(t) == t
      ensures NormalizedTagSet(trim, list) == values
      ensures list == [] <==> values == {}
      ensures forall x :: x in values ==> TagCount(trim, list, x) == 1
    {
      list := [];
      var left := values;
      while left != {}
        invariant Partly(trim, values, left, list)
        decreases |left|
      {
        var t :| t in left;
        OneMore(trim, values, left, list, t);
        list := list + [t];
        left := left - {t};
      }
    }

    /** Writes the wanted tags between an unlock and a relock, which is attempted whatever happened
        before it. */
    method WriteUnlocked(list: seq<string>, clear: bool) returns (ok: bool, ghost r1: Reply, ghost r2: Reply, ghost r3: Reply)
      requires locked == Lock(true)
      modifies this`script, this`trace, this`tags, this`locked
      ensures trace == old(trace) + Session(list, r1, r2, r3) && (ok <==> r1 == r2 == r3 == Fine)
      ensures locked == if r3 != Lost then Lock(true) else if r1 != Lost then Lock(false) else Lock(true)
      ensures tags == old(tags) || tags == list
      ensures ok && (list != [] || clear) ==> tags == list
    {
      ok, r1 := SetTagsLocked(false);
      r2 := Fine;
      if ok {
        ok, r2 := PutTags(list, clear);
      }
      var relocked;
      relocked, r3 := SetTagsLocked(true);
      ok := ok && relocked;
      assert trace == old(trace) + Session(list, r1, r2, r3);
    }

    /** Writes the wanted tags, past a lock if there is one. */
    method WriteTags(list: seq<string>, clear: bool, ghost before: seq<Exchange>) returns (ok: bool)
      requires before <= trace && NoLocking(trace[|before|..])
      modifies this`script, this`trace, this`tags, this`locked
      ensures before <= trace && Tidy(old(locked), locked, trace[|before|..])
      ensures ok && AllFine(old(trace)[|before|..]) ==> AllFine(trace[|before|..]) && locked == old(locked)
      ensures AllFine(trace[|before|..]) ==> ok
      ensures tags == old(tags) || tags == list
      ensures ok && (list != [] || clear) ==> tags == list
    {
      ghost var done := trace[|before|..];
      if locked == Lock(true) {
        ghost var r1, r2, r3;
        ok, r1, r2, r3 := WriteUnlocked(list, clear);
        SessionIsTidy(done, list, r1, r2, r3);
        assert trace[|before|..] == done + Session(list, r1, r2, r3);
        FineIsFine(done, list, r1, r2, r3);
      } else {
        NoLockingNoChange(locked, done);
        ghost var reply;
        ok, reply := PutTags(list, clear);
        TidyStaysTidy(locked, locked, done, Exchange(PutList(list), reply));
        assert trace[|before|..] == done + [Exchange(PutList(list), reply)];
        assert trace[|before|..][|done|].reply == reply;
      }
    }

    /** Reads the book back and compares. */
    method VerifyTags(wanted: set<string>, tag: string, present: bool, waslocked: bool, ghost before: seq<Exchange>, ghost lock: Lock) returns (ok: bool)
      requires before <= trace && Tidy(lock, locked, trace[|before|..])
      modifies this`script, this`trace
      ensures before <= trace && Tidy(lock, locked, trace[|before|..])
      ensures ok ==>
                && NormalizedTagSet(trim, tags) == wanted && TagCount(trim, tags, tag) == (if present then 1 else 0)
                && (AllFine(old(trace)[|before|..]) ==> AllFine(trace[|before|..]))
      ensures (AllFine(trace[|before|..]) && NormalizedTagSet(trim, tags) == wanted && TagCount(trim, tags, tag) == (if present then 1 else 0)
              && (waslocked ==> locked == Lock(true))) ==> ok
      ensures AllFine(trace[|before|..]) ==> AllFine(old(trace)[|before|..])
    {
      ghost var done := trace[|before|..];
      ghost var reply;
      var verified;
      verified, reply := GetBook();
      TidyStaysTidy(lock, locked, done, Exchange(ReadBook, reply));
      assert trace[|before|..] == done + [Exchange(ReadBook, reply)];
      assert trace[|before|..][|done|].reply == reply && forall k :: 0 <= k < |done| ==> trace[|before|..][k] == done[k];
      return verified.Some? && NormalizedTagSet(trim, verified.value.0) == wanted
          && TagCount(trim, verified.value.0, tag) == (if present then 1 else 0)
          && (waslocked ==> verified.value.1 == Lock(true));
    }

    /** For every pattern of failed and ambiguous requests: the lock is kept tidy; it succeeds exactly
        when there is a tag, the lock can be read and every request was fine; and then the lock is as
        before and exactly the one tag has changed. */
    method SetBookTagScoped(raw: string, present: bool) returns (ok: bool)
      requires Trims(trim)
      modifies this`script, this`trace, this`tags, this`locked
      ensures old(trace) <= trace && Tidy(old(locked), locked, trace[|old(trace)|..])
      ensures var tag := trim(raw);
              && (ok <==> tag != "" && old(locked) != Garbled && AllFine(trace[|old(trace)|..]))
              && (ok ==>
                    && locked == old(locked)
                    && NormalizedTagSet(trim, tags) == Wanted(trim, old(tags), tag, present)
                    && TagCount(trim, tags, tag) == if present then 1 else 0)
              && NormalizedTagSet(trim, tags) in {NormalizedTagSet(trim, old(tags)), Wanted(trim, old(tags), tag, present)}
              && (tag == "" || AlreadyDesired(trim, old(tags), tag, present) ==> tags == old(tags) && locked == old(locked))
    {
      NothingIsTidy(locked);
      assert trace[|trace|..] == [];
      var tag := trim(raw);
      if tag == "" {
        return false;
      }
      var ready, book := ReadTwice();
      if !ready {
        return false;
      }
      var wanted := Wanted(trim, book.0, tag, present);
      if AlreadyDesired(trim, book.0, tag, present) {
        DesiredIsWanted(trim, tags, tag, present);
        return true;
      }
      var list := Listed(wanted);
      CountedIsMember(trim, list, tag);
      ok := WriteTags(list, !present && list == [], old(trace));
      if ok {
        ok := VerifyTags(wanted, tag, present, book.1 == Lock(true), old(trace), old(locked));
      }
    }

    /** The book, and once more to see whether it belongs to the library. */
    method ReadTwice() returns (ready: bool, book: (seq<string>, Lock))
      modifies this`script, this`trace
      ensures old(trace) <= trace && Tidy(locked, locked, trace[|old(trace)|..]) && NoLocking(trace[|old(trace)|..])
      ensures ready <==> locked != Garbled && AllFine(trace[|old(trace)|..])
      ensures ready ==> book == (tags, locked)
    {
      NothingIsTidy(locked);
      ghost var reply;
      var seen;
      seen, reply := GetBook();
      TidyStaysTidy(locked, locked, [], Exchange(ReadBook, reply));
      assert trace[|old(trace)|..] == [] + [Exchange(ReadBook, reply)];
      assert trace[|old(trace)|..][0].reply == reply;
      if seen.None? || seen.value.1 == Garbled {
        return false, ([], NoLock);
      }
      var member;
      ghost var again;
      member, again := GetBook();
      TidyStaysTidy(locked, locked, [Exchange(ReadBook, reply)], Exchange(ReadBook, again));
      assert trace[|old(trace)|..] == [Exchange(ReadBook, reply)] + [Exchange(ReadBook, again)];
      assert trace[|old(trace)|..][1].reply == again;
      return member.Some?, seen.value;
    }
  }
}
