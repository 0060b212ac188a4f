/**
 * Bounded chat history: the in-memory store and the Redis script keep the last
 * messages of each user's log; the in-memory store also caps its users.
 */
module ChatHistory {
  import opened Prelude
  import opened JsText

  datatype Role = User | Assistant | ToolSummary

  datatype Message = Message(role: Role, content: string)

  datatype Turn = Turn(userText: string, assistantText: string)

  /** What a turn adds to the log: nothing when either text is blank. */
  function TurnMessages(turn: Turn): seq<Message> {
    var user, assistant := Trim(turn.userText), Trim(turn.assistantText);
    if user == "" || assistant == "" then [] else [Message(User, user), Message(Assistant, assistant)]
  }

  // ----- the two ways of trimming ---------------------------------------------------------

  /** JavaScript's `slice(-max)`; for a `max` of zero or less it cuts from the front. */
  function SliceLast(s: seq<Message>, max: int): seq<Message> {
    if max > 0 then (if |s| <= max then s else s[|s| - max..])
    else if -max <= |s| then s[-max..]
    else []
  }

  /** The script's tail: positions `#s - max + 1` to `#s`, if there are more than `max`. */
  function LuaTail(s: seq<Message>, max: int): seq<Message> {
    if |s| <= max then s
    else if max <= 0 then []
    else s[|s| - max..]
  }

  function AppendMemory(max: int, existing: seq<Message>, turn: Turn): seq<Message> {
    if TurnMessages(turn) == [] then existing else SliceLast(existing + TurnMessages(turn), max)
  }

  function AppendRedis(max: int, existing: seq<Message>, turn: Turn): seq<Message> {
    if TurnMessages(turn) == [] then existing else LuaTail(existing + TurnMessages(turn), max)
  }

  // ----- runs ------------------------------------------------------------------------------

  function RunMemory(max: int, turns: seq<Turn>): seq<Message> {
    if turns == [] then [] else AppendMemory(max, RunMemory(max, turns[..|turns| - 1]), turns[|turns| - 1])
  }

  function RunRedis(max: int, turns: seq<Turn>): seq<Message> {
    if turns == [] then [] else AppendRedis(max, RunRedis(max, turns[..|turns| - 1]), turns[|turns| - 1])
  }

  /** Everything ever said. */
  function FullLog(turns: seq<Turn>): seq<Message> {
    if turns == [] then [] else FullLog(turns[..|turns| - 1]) + TurnMessages(turns[|turns| - 1])
  }

  function LastMessages(log: seq<Message>, n: nat): seq<Message> {
    if |log| <= n then log else log[|log| - n..]
  }

  lemma {:induction false} TrimmingTwiceIsTrimmingOnce(log: seq<Message>, more: seq<Message>, n: nat)
    ensures LastMessages(LastMessages(log, n) + more, n) == LastMessages(log + more, n)
  {
  }

  /** With room for at least one message, both stores hold exactly the end of the full log. */
  lemma {:induction false} BothHoldTheEndOfTheLog(max: int, turns: seq<Turn>)
    requires max >= 1
    ensures RunMemory(max, turns) == RunRedis(max, turns) == LastMessages(FullLog(turns), max)
  {
    hide TurnMessages;
    if turns != [] {
      var front, last := turns[..|turns| - 1], turns[|turns| - 1];
      BothHoldTheEndOfTheLog(max, front);
      TrimmingTwiceIsTrimmingOnce(FullLog(front), TurnMessages(last), max);
      if TurnMessages(last) == [] {
        assert FullLog(front) + [] == FullLog(front);
      }
    }
  }

  /**
   * After a turn with both texts, the last two messages of either store are the
   * learner's text, as the user's, and then the answer, as the assistant's, each
   * without the blanks around it; a turn without one of them leaves no trace.
   */
  lemma {:induction false} TurnIsTheLastWord(max: int, turns: seq<Turn>, turn: Turn)
    requires max >= 2
    ensures var memory, redis := RunMemory(max, turns + [turn]), RunRedis(max, turns + [turn]);
      if Trim(turn.userText) != "" && Trim(turn.assistantText) != "" then
        var said := [Message(User, Trim(turn.userText)), Message(Assistant, Trim(turn.assistantText))];
        && |memory| >= 2 && memory[|memory| - 2..] == said
        && |redis| >= 2 && redis[|redis| - 2..] == said
      else memory == RunMemory(max, turns) && redis == RunRedis(max, turns)
  {
    hide Trim;
    assert (turns + [turn])[..|turns|] == turns;
    assert RunMemory(max, turns + [turn]) == AppendMemory(max, RunMemory(max, turns), turn);
    assert RunRedis(max, turns + [turn]) == AppendRedis(max, RunRedis(max, turns), turn);
  }

  lemma {:induction false} FarBelowZeroHoldsNothing(max: int, turns: seq<Turn>)
    requires max <= -2
    ensures RunMemory(max, turns) == RunRedis(max, turns) == []
  {
    if turns != [] {
      FarBelowZeroHoldsNothing(max, turns[..|turns| - 1]);
      assert [] + TurnMessages(turns[|turns| - 1]) == TurnMessages(turns[|turns| - 1]);
    }
  }

  lemma {:induction false} WordIsKept()
    ensures Trim("a") == "a"
  {
  }

  /** At zero and at minus one the in-memory store keeps what the script throws away. */
  lemma {:induction false} NearZeroTheyDiffer(max: int)
    requires -1 <= max <= 0
    ensures var turns := [Turn("a", "a")]; RunMemory(max, turns) != [] && RunRedis(max, turns) == []
  {
    WordIsKept();
    hide Trim;
    var turns := [Turn("a", "a")];
    var said := [Message(User, "a"), Message(Assistant, "a")];
    assert turns[..0] == [] && [] + said == said;
    assert TurnMessages(turns[0]) == said;
  }

  /** The stores agree on every sequence of turns exactly when `max` is neither 0 nor -1. */
  lemma {:induction false} StoresAgreeIff(max: int)
    ensures (forall turns :: RunMemory(max, turns) == RunRedis(max, turns)) <==> max >= 1 || max <= -2
  {
    if max >= 1 {
      forall turns: seq<Turn>
        ensures RunMemory(max, turns) == RunRedis(max, turns)
      {
        BothHoldTheEndOfTheLog(max, turns);
      }
    } else if max <= -2 {
      forall turns: seq<Turn>
        ensures RunMemory(max, turns) == RunRedis(max, turns)
      {
        FarBelowZeroHoldsNothing(max, turns);
      }
    } else {
      NearZeroTheyDiffer(max);
    }
  }

  // ----- the Redis store ----------------------------------------------------------------------

  datatype Stored = Stored(messages: seq<Message>, expiresAt: int)

  class RedisChatHistoryStore {
    const ttlSec: nat
    const maxMessages: int
    var keys: map<string, Stored>

    constructor (ttlSec: nat, maxMessages: int)
      ensures this.ttlSec == ttlSec && this.maxMessages == maxMessages && keys == map[]
    {
      this.ttlSec, this.maxMessages, keys := ttlSec, maxMessages, map[];
    }

    function Held(user: string, now: int): seq<Message>
      reads this
    {
      if user in keys && now <= keys[user].expiresAt then keys[user].messages else []
    }

    static method Tail(s: seq<Message>, max: int) returns (tail: seq<Message>)
      requires |s| > max
      ensures tail == LuaTail(s, max)
    {
      tail := [];
      var k := |s| - max;
      while k < |s|
        invariant |s| - max <= k
        invariant if max <= 0 then tail == [] else k <= |s| && tail == s[|s| - max..k]
      {
        tail := tail + [s[k]];
        k := k + 1;
      }
    }

    /** The script: append, trim, write back under a fresh expiry. */
    method AppendAtomic(user: string, messages: seq<Message>, now: int)
      modifies this
      ensures keys == old(keys)[user :=
        Stored(
          LuaTail(
            (if user in old(keys) && now <= old(keys)[user].expiresAt then old(keys)[user].messages else []) + messages,
            maxMessages),
          now + 1000 * ttlSec)]
    {
      var existing := Held(user, now);
      ghost var before := existing;
      var i := 0;
      while i < |messages|
        invariant 0 <= i <= |messages|
        invariant existing == before + messages[..i]
      {
        existing := existing + [messages[i]];
        i := i + 1;
      }
      assert messages[..i] == messages;
      if |existing| > maxMessages {
        existing := Tail(existing, maxMessages);
      }
      keys := keys[user := Stored(existing, now + 1000 * ttlSec)];
    }

    method AppendTurn(user: string, turn: Turn, now: int)
      modifies this
      ensures TurnMessages(turn) == [] ==> keys == old(keys)
      ensures TurnMessages(turn) != [] ==>
        keys == old(keys)[user := Stored(AppendRedis(maxMessages, old(Held(user, now)), turn), now + 1000 * ttlSec)]
    {
      var messages := TurnMessages(turn);
      if messages == [] {
        return;
      }
      AppendAtomic(user, messages, now);
    }
  }

  // ----- the in-memory store ---------------------------------------------------------------------

  datatype History = History(messages: seq<Message>, updatedAt: int)

  datatype Summary = Summary(content: string, updatedAt: int)

  function AliveSummaries(summaries: seq<Summary>, now: int, ttlMs: int): seq<Summary> {
    if summaries == [] then []
    else
      (if now - summaries[0].updatedAt <= ttlMs then [summaries[0]] else [])
      + AliveSummaries(summaries[1..], now, ttlMs)
  }

  function AsMessages(summaries: seq<Summary>): seq<Message> {
    seq(|summaries|, i requires 0 <= i < |summaries| => Message(ToolSummary, summaries[i].content))
  }

  /** The users whose history is not too old. */
  function LiveUsers(store: map<string, History>, now: int, ttlMs: int): map<string, History> {
    map u | u in store && now - store[u].updatedAt <= ttlMs :: store[u]
  }

  /** The pending summaries that are not too old, of the users that have any. */
  function SweptSummaries(pending: map<string, seq<Summary>>, now: int, ttlMs: int): map<string, seq<Summary>> {
    map u | u in pending && AliveSummaries(pending[u], now, ttlMs) != [] :: AliveSummaries(pending[u], now, ttlMs)
  }

  /** A summary is let go exactly once it is older than `ttlMs`; the others keep their order. */
  lemma {:induction false} AliveIsExact(earlier: seq<Summary>, summary: Summary, now: int, ttlMs: int)
    ensures AliveSummaries([], now, ttlMs) == []
    ensures AliveSummaries(earlier + [summary], now, ttlMs)
         == AliveSummaries(earlier, now, ttlMs) + (if summary.updatedAt + ttlMs >= now then [summary] else [])
  {
    var all, kept := earlier + [summary], if summary.updatedAt + ttlMs >= now then [summary] else [];
    if earlier == [] {
      assert all == [summary] && all[1..] == [];
    } else {
      var first := if now - earlier[0].updatedAt <= ttlMs then [earlier[0]] else [];
      var rest := AliveSummaries(earlier[1..], now, ttlMs);
      AliveIsExact(earlier[1..], summary, now, ttlMs);
      assert all[0] == earlier[0] && all[1..] == earlier[1..] + [summary];
      assert first + (rest + kept) == (first + rest) + kept;
    }
  }

  /** A history is let go exactly once it is older than `ttlMs`, and a user's summaries once none is left. */
  lemma {:induction false} SweepIsExact(
      store: map<string, History>, pending: map<string, seq<Summary>>, now: int, ttlMs: int, user: string)
    ensures var live := LiveUsers(store, now, ttlMs);
      && (user in live <==> user in store && store[user].updatedAt + ttlMs >= now)
      && (user in live ==> live[user] == store[user])
    ensures var swept := SweptSummaries(pending, now, ttlMs);
      && (user in swept <==>
            user in pending && exists i :: 0 <= i < |pending[user]| && pending[user][i].updatedAt + ttlMs >= now)
      && (user in swept ==> swept[user] == AliveSummaries(pending[user], now, ttlMs))
  {
    if user in pending {
      SomeIsAlive(pending[user], now, ttlMs);
    }
  }

  lemma {:induction false} SomeIsAlive(summaries: seq<Summary>, now: int, ttlMs: int)
    ensures AliveSummaries(summaries, now, ttlMs) != [] <==>
      exists i :: 0 <= i < |summaries| && summaries[i].updatedAt + ttlMs >= now
  {
    if summaries != [] {
      var n := |summaries| - 1;
      SomeIsAlive(summaries[..n], now, ttlMs);
      AliveIsExact(summaries[..n], summaries[n], now, ttlMs);
      assert summaries[..n] + [summaries[n]] == summaries;
      assert forall i :: 0 <= i < n ==> summaries[..n][i] == summaries[i];
    }
  }

  /** Each summary is shown as a message of the tool's. */
  lemma {:induction false} SummariesAreToolMessages(summaries: seq<Summary>)
    ensures |AsMessages(summaries)| == |summaries|
    ensures forall i :: 0 <= i < |summaries| ==> AsMessages(summaries)[i] == Message(ToolSummary, summaries[i].content)
  {
  }

  /** Oldest first. */
  ghost predicate ByAge(store: map<string, History>, users: seq<string>) {
    && (forall i :: 0 <= i < |users| ==> users[i] in store)
    && (forall i, j :: 0 <= i < j < |users| ==> store[users[i]].updatedAt <= store[users[j]].updatedAt)
  }

  /** A sort of the users by age: any order among equals. */
  method SortByAge(store: map<string, History>) returns (users: seq<string>)
    ensures ByAge(store, users) && Distinct(users)
    ensures forall u :: u in users <==> u in store
  {
    users := [];
    var rest := store.Keys;
    while rest != {}
      invariant rest <= store.Keys
      invariant ByAge(store, users) && Distinct(users)
      invariant forall u :: u in users <==> u in store && u !in rest
      decreases |rest|
    {
      var u :| u in rest;
      rest := rest - {u};
      users := Insert(store, users, u);
    }
  }

  method Insert(store: map<string, History>, users: seq<string>, u: string) returns (longer: seq<string>)
    requires u in store && u !in users && ByAge(store, users) && Distinct(users)
    ensures ByAge(store, longer) && Distinct(longer)
    ensures forall v :: v in longer <==> v in users || v == u
  {
    var i := 0;
    while i < |users| && store[users[i]].updatedAt <= store[u].updatedAt
      invariant 0 <= i <= |users|
      invariant forall k :: 0 <= k < i ==> store[users[k]].updatedAt <= store[u].updatedAt
    {
      i := i + 1;
    }
    longer := users[..i] + [u] + users[i..];
    InsertedInOrder(store, users, u, i);
  }

  lemma {:induction false} InsertedInOrder(store: map<string, History>, users: seq<string>, u: string, i: nat)
    requires i <= |users| && u in store && u !in users && ByAge(store, users) && Distinct(users)
    requires forall k :: 0 <= k < i ==> store[users[k]].updatedAt <= store[u].updatedAt
    requires i < |users| ==> store[u].updatedAt <= store[users[i]].updatedAt
    ensures var longer := users[..i] + [u] + users[i..];
      ByAge(store, longer) && Distinct(longer) && forall v :: v in longer <==> v in users || v == u
  {
    InsertedByAge(store, users, u, i);
    InsertedOnce(users, u, i);
    hide *;
  }

  lemma {:induction false} InsertedAt(users: seq<string>, u: string, i: nat)
    requires i <= |users|
    ensures var longer := users[..i] + [u] + users[i..];
      && |longer| == |users| + 1
      && forall k :: 0 <= k < |longer| ==> longer[k] == if k < i then users[k] else if k == i then u else users[k - 1]
  {
  }

  lemma {:induction false} InsertedByAge(store: map<string, History>, users: seq<string>, u: string, i: nat)
    requires i <= |users| && u in store && ByAge(store, users)
    requires forall k :: 0 <= k < i ==> store[users[k]].updatedAt <= store[u].updatedAt
    requires i < |users| ==> store[u].updatedAt <= store[users[i]].updatedAt
    ensures ByAge(store, users[..i] + [u] + users[i..])
  {
    InsertedAt(users, u, i);
    ghost var longer := users[..i] + [u] + users[i..];
    forall a, b | 0 <= a < b < |longer|
      ensures longer[a] in store && longer[b] in store && store[longer[a]].updatedAt <= store[longer[b]].updatedAt
    {
    }
    assert forall k :: 0 <= k < |longer| ==> longer[k] in store;
  }

  lemma {:induction false} InsertedOnce(users: seq<string>, u: string, i: nat)
    requires i <= |users| && u !in users && Distinct(users)
    ensures var longer := users[..i] + [u] + users[i..];
      Distinct(longer) && forall v :: v in longer <==> v in users || v == u
  {
    InsertedAt(users, u, i);
    assert users == users[..i] + users[i..];
  }

  /** The oldest users are gone, and no more than needed. */
  ghost predicate CapKept(live: map<string, History>, kept: map<string, History>, maxUsers: nat) {
    && kept.Keys <= live.Keys && (forall u :: u in kept ==> kept[u] == live[u])
    && |kept| == (if |live| <= maxUsers then |live| else maxUsers)
    && (forall gone, u :: gone in live && gone !in kept && u in kept ==> live[gone].updatedAt <= live[u].updatedAt)
  }

  /** What is left when the first `n` users are gone. */
  function WithoutFirst<T>(m: map<string, T>, users: seq<string>, n: nat): map<string, T>
    requires n <= |users|
  {
    map u | u in m && u !in users[..n] :: m[u]
  }

  lemma {:induction false} OneMoreGone<T>(m: map<string, T>, users: seq<string>, n: nat)
    requires n < |users|
    ensures WithoutFirst(m, users, n + 1) == WithoutFirst(m, users, n) - {users[n]}
  {
    assert users[..n + 1] == users[..n] + [users[n]];
  }

  lemma {:induction false} EachEvictionTakesOne(live: map<string, History>, users: seq<string>, n: nat)
    requires n < |users| && Distinct(users) && users[n] in live
    ensures |WithoutFirst(live, users, n) - {users[n]}| == |WithoutFirst(live, users, n)| - 1
  {
    var before := WithoutFirst(live, users, n);
    assert users[n] in before;
    var after := before - {users[n]};
    assert before.Keys == after.Keys + {users[n]};
    CardPlusOne(after.Keys, before.Keys, users[n]);
  }

  /** The summaries of everyone who was not evicted. */
  function LeftTo<T>(pending: map<string, T>, live: map<string, History>, kept: map<string, History>): map<string, T> {
    pending - (live.Keys - kept.Keys)
  }

  lemma {:induction false} GoneTogether<T>(
      live: map<string, History>, pending: map<string, T>, users: seq<string>, n: nat)
    requires n <= |users| && forall u :: u in users <==> u in live
    ensures WithoutFirst(pending, users, n) == LeftTo(pending, live, WithoutFirst(live, users, n))
  {
    assert forall u :: u in users[..n] ==> u in users;
  }

  lemma {:induction false} NobodyNeedsToGo(live: map<string, History>, maxUsers: nat)
    requires |live| <= maxUsers
    ensures CapKept(live, live, maxUsers)
  {
  }

  lemma {:induction false} NothingTaken<T>(pending: map<string, T>, live: map<string, History>)
    ensures LeftTo(pending, live, live) == pending
  {
  }

  lemma {:induction false} NoneGone<T>(m: map<string, T>, users: seq<string>)
    ensures WithoutFirst(m, users, 0) == m
  {
  }

  lemma {:induction false} OldestFirstKeepsCap(live: map<string, History>, users: seq<string>, n: nat, maxUsers: nat)
    requires n <= |users| && ByAge(live, users) && forall u :: u in users <==> u in live
    requires |WithoutFirst(live, users, n)| == (if |live| <= maxUsers then |live| else maxUsers)
    ensures CapKept(live, WithoutFirst(live, users, n), maxUsers)
  {
    var kept := WithoutFirst(live, users, n);
    forall gone, u | gone in live && gone !in kept && u in kept
      ensures live[gone].updatedAt <= live[u].updatedAt
    {
      assert gone in users[..n] && u in users && u !in users[..n];
      var i :| 0 <= i < n && users[i] == gone;
      var j :| 0 <= j < |users| && users[j] == u;
      assert j >= n;
    }
  }

  /** When everyone has been evicted, nobody is left. */
  lemma {:induction false} NobodyLeft(live: map<string, History>, users: seq<string>, n: nat)
    requires n <= |users| && forall u :: u in users <==> u in live
    ensures n == |users| ==> |WithoutFirst(live, users, n)| == 0
  {
    if n == |users| {
      assert users[..n] == users;
      assert WithoutFirst(live, users, n) == map[];
    }
  }

  lemma {:induction false} EvictionIsDone<T>(
      live: map<string, History>, pending: map<string, T>, users: seq<string>, n: nat, maxUsers: nat)
    requires |live| > maxUsers && ByAge(live, users) && forall u :: u in users <==> u in live
    requires n <= |users| && |WithoutFirst(live, users, n)| >= maxUsers
    requires n == |users| || |WithoutFirst(live, users, n)| <= maxUsers
    ensures CapKept(live, WithoutFirst(live, users, n), maxUsers)
    ensures WithoutFirst(pending, users, n) == LeftTo(pending, live, WithoutFirst(live, users, n))
  {
    hide ByAge;
    GoneTogether(live, pending, users, n);
    NobodyLeft(live, users, n);
    hide WithoutFirst;
    OldestFirstKeepsCap(live, users, n, maxUsers);
  }

  class MemoryChatHistoryStore {
    const ttlMs: int
    const maxMessages: int
    const maxUsers: nat
    var store: map<string, History>
    var pendingSummaries: map<string, seq<Summary>>

    constructor (ttlMs: int, maxMessages: int, maxUsers: nat)
      ensures this.ttlMs == ttlMs && this.maxMessages == maxMessages && this.maxUsers == maxUsers
      ensures store == map[] && pendingSummaries == map[]
    {
      this.ttlMs, this.maxMessages, this.maxUsers := ttlMs, maxMessages, maxUsers;
      store, pendingSummaries := map[], map[];
    }

    /** The history a reader may see: nothing once it is too old. */
    function Held(user: string, now: int): seq<Message>
      reads this
    {
      if user in store && now - store[user].updatedAt <= ttlMs then store[user].messages else []
    }

    method GetHistory(user: string, now: int) returns (messages: seq<Message>)
      modifies this
      ensures messages
        == if user in LiveUsers(old(store), now, ttlMs)
           then old(store)[user].messages
             + (if user in pendingSummaries then AsMessages(AliveSummaries(pendingSummaries[user], now, ttlMs)) else [])
           else []
      ensures pendingSummaries == old(pendingSummaries)
      ensures store == if user in LiveUsers(old(store), now, ttlMs) then old(store) else old(store) - {user}
    {
      if user !in store {
        return [];
      }
      if now - store[user].updatedAt > ttlMs {
        store := store - {user};
        return [];
      }
      var summaries := if user in pendingSummaries then AliveSummaries(pendingSummaries[user], now, ttlMs) else [];
      return store[user].messages + AsMessages(summaries);
    }

    method AppendTurn(user: string, turn: Turn, now: int)
      modifies this
      ensures TurnMessages(turn) == [] ==> store == old(store) && pendingSummaries == old(pendingSummaries)
      ensures TurnMessages(turn) != [] ==>
        && store == old(store)[user :=
             History(
               AppendMemory(
                 maxMessages,
                 if user in LiveUsers(old(store), now, ttlMs) then old(store)[user].messages else [],
                 turn),
               now)]
        && pendingSummaries == old(pendingSummaries) - {user}
    {
      if TurnMessages(turn) == [] {
        return;
      }
      var messages := SliceLast(Held(user, now) + TurnMessages(turn), maxMessages);
      pendingSummaries := pendingSummaries - {user};
      store := store[user := History(messages, now)];
    }

    /**
     * Afterwards no history and no summary is too old and at most `maxUsers`
     * remain; a live user is evicted only for the cap, never before an older one,
     * and then without leaving summaries behind.
     */
    method EvictStale(now: int)
      modifies this
      ensures CapKept(LiveUsers(old(store), now, ttlMs), store, maxUsers)
      ensures forall u :: u in pendingSummaries ==>
        u in SweptSummaries(old(pendingSummaries), now, ttlMs)
        && pendingSummaries[u] == SweptSummaries(old(pendingSummaries), now, ttlMs)[u]
      ensures forall u :: u in SweptSummaries(old(pendingSummaries), now, ttlMs) ==>
        (u in pendingSummaries <==> u !in LiveUsers(old(store), now, ttlMs) || u in store)
    {
      hide LiveUsers;
      hide SweptSummaries;
      DropExpired(now);
      SweepSummaries(now);
      EvictOverCap();
    }

    method DropExpired(now: int)
      modifies this
      ensures store == LiveUsers(old(store), now, ttlMs) && pendingSummaries == old(pendingSummaries)
    {
      ghost var before := store;
      var rest := store.Keys;
      while rest != {}
        invariant pendingSummaries == old(pendingSummaries)
        invariant rest <= before.Keys
        invariant forall u :: u in store <==> u in before && (u in rest || now - before[u].updatedAt <= ttlMs)
        invariant forall u :: u in store ==> store[u] == before[u]
        decreases |rest|
      {
        var u :| u in rest;
        rest := rest - {u};
        if now - store[u].updatedAt > ttlMs {
          store := store - {u};
        }
      }
    }

    method SweepSummaries(now: int)
      modifies this
      ensures pendingSummaries == SweptSummaries(old(pendingSummaries), now, ttlMs) && store == old(store)
    {
      ghost var before := pendingSummaries;
      var rest := pendingSummaries.Keys;
      while rest != {}
        invariant store == old(store)
        invariant rest <= pendingSummaries.Keys <= before.Keys
        invariant forall u :: u in rest ==> pendingSummaries[u] == before[u]
        invariant forall u :: u in before && u !in rest ==>
          if AliveSummaries(before[u], now, ttlMs) == [] then u !in pendingSummaries
          else u in pendingSummaries && pendingSummaries[u] == AliveSummaries(before[u], now, ttlMs)
        decreases |rest|
      {
        var u :| u in rest;
        rest := rest - {u};
        var alive := AliveSummaries(pendingSummaries[u], now, ttlMs);
        if alive == [] {
          pendingSummaries := pendingSummaries - {u};
        } else {
          pendingSummaries := pendingSummaries[u := alive];
        }
      }
    }

    method EvictOverCap()
      modifies this
      ensures CapKept(old(store), store, maxUsers)
      ensures pendingSummaries == LeftTo(old(pendingSummaries), old(store), store)
    {
      hide CapKept;
      hide LeftTo;
      if |store| <= maxUsers {
        NobodyNeedsToGo(store, maxUsers);
        NothingTaken(pendingSummaries, store);
        return;
      }
      ghost var live, pending := store, pendingSummaries;
      var byAge := SortByAge(store);
      hide WithoutFirst;
      hide ByAge;
      hide Distinct;
      NoneGone(live, byAge);
      NoneGone(pending, byAge);
      var i := 0;
      while i < |byAge| && |store| > maxUsers
        invariant 0 <= i <= |byAge|
        invariant store == WithoutFirst(live, byAge, i) && |store| >= maxUsers
        invariant pendingSummaries == WithoutFirst(pending, byAge, i)
      {
        OneMoreGone(live, byAge, i);
        OneMoreGone(pending, byAge, i);
        EachEvictionTakesOne(live, byAge, i);
        store := store - {byAge[i]};
        pendingSummaries := pendingSummaries - {byAge[i]};
        i := i + 1;
      }
      EvictionIsDone(live, pending, byAge, i, maxUsers);
    }
  }
}
