/** One replica group of the sharded key/value store (src/shardkv/server.go). */
module ShardStore {

  const NSHARDS: nat := 10

  /** key2shard */
  function Key2Shard(key: string): (s: nat)
    ensures s < NSHARDS
  {
    if |key| > 0 then (key[0] as int) % NSHARDS else 0
  }

  /** The shard is that of the first character; the next character has the next shard, so that ten
      characters in a row have all of them. */
  lemma ShardByFirstChar(c: char, rest: string, d: char)
    requires (d as int) == (c as int) + 1
    ensures Key2Shard("") == 0
    ensures Key2Shard([c] + rest) == Key2Shard([c])
    ensures Key2Shard([d]) == if Key2Shard([c]) == 9 then 0 else Key2Shard([c]) + 1
    ensures c == 'd' ==> Key2Shard([c]) == 0
  {
    assert ([c] + rest)[0] == c;
  }

  /** One client's requests on one shard. */
  type SessionKey = (int, nat)

  /** What a group's log has made of its state: the data, the last request of each client on
      each shard, the configuration it is in, which shards it serves, and the last
      configuration in which it had each shard. */
  datatype Group = Group(
    gid: int,
    mp: map<string, string>,
    sessions: map<SessionKey, int>,
    num: nat,
    vec: seq<bool>,
    last: seq<nat>)
  {
    ghost predicate Shaped() {
      |vec| == NSHARDS && |last| == NSHARDS
    }
  }

  datatype Write = Read | Set(value: string) | Extend(value: string)

  function Lookup(mp: map<string, string>, key: string): string {
    if key in mp then mp[key] else ""
  }

  function Written(mp: map<string, string>, key: string, write: Write): map<string, string> {
    match write
    case Read => mp
    case Set(value) => mp[key := value]
    case Extend(value) => mp[key := Lookup(mp, key) + value]
  }

  predicate IsStale(sessions: map<SessionKey, int>, ck: int, s: nat, req: int) {
    (ck, s) in sessions && req <= sessions[(ck, s)]
  }

  // ----- the effect of each operation in the log

  /** A client's Get, Put or Append: an old request only touches the session, a request on a
      shard that is not served changes nothing. */
  function Client(g: Group, ck: int, req: int, key: string, write: Write): Group
    requires g.Shaped()
  {
    var s := Key2Shard(key);
    if IsStale(g.sessions, ck, s, req) then g.(sessions := g.sessions[(ck, s) := req])
    else if !g.vec[s] then g
    else g.(mp := Written(g.mp, key, write), sessions := g.sessions[(ck, s) := req])
  }

  function UpdateShardVec(g: Group, num: nat, vec: seq<bool>): Group {
    if g.num < num then g.(vec := vec) else g
  }

  function ChangeConfig(g: Group, num: nat, shards: seq<int>): Group
    requires g.Shaped() && |shards| == NSHARDS
  {
    if g.num < num then
      g.(num := num,
         vec := seq(NSHARDS, s requires 0 <= s < NSHARDS => shards[s] == g.gid),
         last := seq(NSHARDS, s requires 0 <= s < NSHARDS => if shards[s] == g.gid then num else g.last[s]))
    else g
  }

  /** The keys of the incoming data whose shard is not yet as recent as configuration `num`. */
  ghost function NewKeys(last: seq<nat>, num: nat, mp: map<string, string>): set<string>
    requires |last| == NSHARDS
  {
    set k | k in mp && last[Key2Shard(k)] < num
  }

  ghost predicate ShardsInRange(sessions: map<SessionKey, int>) {
    forall k :: k in sessions ==> k.1 < NSHARDS
  }

  ghost function NewSessions(last: seq<nat>, num: nat, sessions: map<SessionKey, int>): set<SessionKey>
    requires |last| == NSHARDS && ShardsInRange(sessions)
  {
    set k | k in sessions && last[k.1] < num
  }

  ghost function Overlay<K, V>(base: map<K, V>, incoming: map<K, V>, keys: set<K>): map<K, V>
    requires keys <= incoming.Keys
  {
    map k | k in base.Keys + keys :: if k in keys then incoming[k] else base[k]
  }

  lemma OverlayNone<K, V>(base: map<K, V>, incoming: map<K, V>)
    ensures Overlay(base, incoming, {}) == base
  {}

  lemma OverlayOneMore<K, V>(base: map<K, V>, incoming: map<K, V>, keys: set<K>, k: K)
    requires keys <= incoming.Keys && k in incoming
    ensures Overlay(base, incoming, keys + {k}) == Overlay(base, incoming, keys)[k := incoming[k]]
  {}

  ghost function ApplyMovement(
    g: Group, num: nat, mp: map<string, string>, sessions: map<SessionKey, int>, moved: set<nat>): Group
    requires g.Shaped() && ShardsInRange(sessions) && forall s :: s in moved ==> s < NSHARDS
  {
    g.(mp := Overlay(g.mp, mp, NewKeys(g.last, num, mp)),
       sessions := Overlay(g.sessions, sessions, NewSessions(g.last, num, sessions)),
       vec := seq(NSHARDS, s requires 0 <= s < NSHARDS => s in moved || g.vec[s]),
       last := seq(NSHARDS, s requires 0 <= s < NSHARDS => if s in moved then num else g.last[s]))
  }

  ghost function Deletable(g: Group, num: nat, gone: set<nat>): set<nat>
    requires g.Shaped() && forall s :: s in gone ==> s < NSHARDS
  {
    set s | s in gone && num >= g.last[s]
  }

  ghost function DeleteShards(g: Group, num: nat, gone: set<nat>): Group
    requires g.Shaped() && forall s :: s in gone ==> s < NSHARDS
  {
    var doomed := Deletable(g, num, gone);
    g.(mp := map k | k in g.mp && Key2Shard(k) !in doomed :: g.mp[k],
       sessions := map k | k in g.sessions && k.1 !in doomed :: g.sessions[k])
  }

  /** The code removes the shards that it refuses to delete from the entry itself, which other
      readers of the entry share; a server in the same state does the same with what is left. */
  lemma RefusedShardsDoNotMatter(g: Group, num: nat, gone: set<nat>)
    requires g.Shaped() && forall s :: s in gone ==> s < NSHARDS
    ensures DeleteShards(g, num, Deletable(g, num, gone)) == DeleteShards(g, num, gone)
  {
    assert Deletable(g, num, Deletable(g, num, gone)) == Deletable(g, num, gone);
  }

  /** Of a shard that may be deleted nothing is left, and of other shards everything. */
  lemma DeletedIsGone(g: Group, num: nat, gone: set<nat>, s: nat)
    requires g.Shaped() && (forall t :: t in gone ==> t < NSHARDS) && s < NSHARDS
    ensures var g', doomed := DeleteShards(g, num, gone), s in gone && g.last[s] <= num;
            && (forall k :: Key2Shard(k) == s ==> (k in g'.mp <==> k in g.mp && !doomed))
            && (forall k :: Key2Shard(k) == s && k in g'.mp ==> g'.mp[k] == g.mp[k])
            && (forall ck :: (ck, s) in g'.sessions <==> (ck, s) in g.sessions && !doomed)
            && (forall ck :: (ck, s) in g'.sessions ==> g'.sessions[(ck, s)] == g.sessions[(ck, s)])
            && g'.num == g.num && g'.vec == g.vec && g'.last == g.last
  {}

  /** RequestMapAndSession: the data and the sessions of the wanted shards. */
  ghost function DataOf(mp: map<string, string>, shards: set<nat>): map<string, string> {
    map k | k in mp && Key2Shard(k) in shards :: mp[k]
  }

  ghost function SessionsOf(sessions: map<SessionKey, int>, shards: set<nat>): map<SessionKey, int> {
    map k | k in sessions && k.1 in shards :: sessions[k]
  }
}
