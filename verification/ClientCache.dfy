/** One mint client per URL, behind a lock that is taken for reading first and for writing on a miss. */
module ClientCache {
  // Clients are numbered in the order they are built.
  type Client = nat

  datatype Thread =
    | Looking(key: string)
    | Missed(key: string)
    | Returned(key: string, client: Client)

  datatype State = State(clients: map<string, Client>, built: nat, threads: map<nat, Thread>)

  const INIT := State(map[], 0, map[])

  /** A caller arrives, or one goes through the lock once. */
  datatype Action = Arrive(thread: nat, key: string) | Proceed(thread: nat)

  /** Under the read lock: a hit or a miss. */
  function Peek(s: State, key: string): Thread {
    if key in s.clients then Returned(key, s.clients[key]) else Missed(key)
  }

  /** Under the write lock: the second look, and the insertion if that misses too. */
  function Insert(s: State, key: string): State {
    if key in s.clients then s else s.(clients := s.clients[key := s.built], built := s.built + 1)
  }

  function Apply(s: State, a: Action): State {
    match a
    case Arrive(t, key) =>
      if t in s.threads then s else s.(threads := s.threads[t := Looking(key)])
    case Proceed(t) =>
      if t !in s.threads then s
      else
        match s.threads[t]
        case Looking(key) => s.(threads := s.threads[t := Peek(s, key)])
        case Missed(key) =>
          var s' := Insert(s, key);
          s'.(threads := s.threads[t := Returned(key, s'.clients[key])])
        case Returned(_, _) => s
  }

  function RunFrom(s: State, actions: seq<Action>): State
    decreases |actions|
  {
    if actions == [] then s else RunFrom(Apply(s, actions[0]), actions[1..])
  }

  // ----- Every interleaving ----------------------------------------------------

  predicate OneEach(clients: map<string, Client>, built: nat) {
    && (forall k <- clients :: clients[k] < built)
    && (forall k, l | k in clients && l in clients && clients[k] == clients[l] :: k == l)
    && |clients| == built
  }

  predicate AnswersStand(s: State) {
    forall t <- s.threads :: s.threads[t].Returned? ==>
      s.threads[t].key in s.clients && s.clients[s.threads[t].key] == s.threads[t].client
  }

  predicate Inv(s: State) {
    OneEach(s.clients, s.built) && AnswersStand(s)
  }

  predicate Extends(before: map<string, Client>, after: map<string, Client>) {
    forall k <- before :: k in after && after[k] == before[k]
  }

  lemma InsertKeeps(s: State, key: string)
    requires OneEach(s.clients, s.built)
    ensures var t := Insert(s, key);
      OneEach(t.clients, t.built) && Extends(s.clients, t.clients) && key in t.clients
  {
    if key !in s.clients {
      var t := Insert(s, key);
      assert t.clients.Keys == s.clients.Keys + {key};
      SizeOfKeys(s.clients);
      SizeOfKeys(t.clients);
    }
  }

  lemma SizeOfKeys(m: map<string, Client>)
    ensures |m| == |m.Keys|
  {
  }

  lemma StepKeeps(s: State, a: Action)
    requires Inv(s)
    ensures Inv(Apply(s, a)) && Extends(s.clients, Apply(s, a).clients)
  {
    if a.Proceed? && a.thread in s.threads && s.threads[a.thread].Missed? {
      InsertKeeps(s, s.threads[a.thread].key);
    }
  }

  lemma {:induction false} RunKeeps(s: State, actions: seq<Action>)
    requires Inv(s)
    ensures Inv(RunFrom(s, actions)) && Extends(s.clients, RunFrom(s, actions).clients)
    decreases |actions|
  {
    if actions != [] {
      StepKeeps(s, actions[0]);
      RunKeeps(Apply(s, actions[0]), actions[1..]);
    }
  }

  /** However calls interleave, two of them get the same client exactly when they ask for the same URL. */
  lemma SameClientIff(actions: seq<Action>, t: nat, u: nat)
    requires var s := RunFrom(INIT, actions);
      t in s.threads && u in s.threads && s.threads[t].Returned? && s.threads[u].Returned?
    ensures var s := RunFrom(INIT, actions);
      s.threads[t].client == s.threads[u].client <==> s.threads[t].key == s.threads[u].key
  {
    RunKeeps(INIT, actions);
  }

  /** No client is built and thrown away: as many were built as the cache holds. */
  lemma NoneWasted(actions: seq<Action>)
    ensures RunFrom(INIT, actions).built == |RunFrom(INIT, actions).clients|
  {
    RunKeeps(INIT, actions);
  }

  /** An entry is never replaced or removed. */
  lemma EntriesStay(first: seq<Action>, second: seq<Action>)
    ensures Extends(RunFrom(INIT, first).clients, RunFrom(INIT, first + second).clients)
  {
    RunKeeps(INIT, first);
    RunKeeps(RunFrom(INIT, first), second);
    RunSplit(INIT, first, second);
  }

  lemma {:induction false} RunSplit(s: State, first: seq<Action>, second: seq<Action>)
    ensures RunFrom(s, first + second) == RunFrom(RunFrom(s, first), second)
    decreases |first|
  {
    if first == [] {
      assert first + second == second;
    } else {
      assert (first + second)[1..] == first[1..] + second;
      RunSplit(Apply(s, first[0]), first[1..], second);
    }
  }

  // ----- The provider's map ----------------------------------------------------

  class CdkCashuProvider {
    var clients: map<string, Client>
    var built: nat

    ghost predicate Valid()
      reads this
    {
      OneEach(clients, built)
    }

    constructor ()
      ensures Valid() && clients == map[]
    {
      clients, built := map[], 0;
    }

    /** A call nobody interrupts: the cached client, or a new one that no other URL has. */
    method GetOrCreate(key: string) returns (client: Client)
      requires Valid()
      modifies this
      ensures Valid() && key in clients && client == clients[key]
      ensures clients == old(clients)[key := client]
      ensures key in old(clients) ==> client == old(clients)[key] && built == old(built)
      ensures key !in old(clients) ==> client !in old(clients).Values && built == old(built) + 1
    {
      InsertKeeps(State(clients, built, map[]), key);
      if key in clients {
        return clients[key];
      }
      client := built;
      built := built + 1;
      clients := clients[key := client];
    }
  }
}
