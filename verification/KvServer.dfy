/** The single key/value server (src/kvsrv): an Append carries a bit that the client flips with each
call, and the server executes an Append only if the bit is the one it expects of that client.

Requests and replies may be lost, and a request may be repeated while the call is going on, and even
after, as long as the bit keeps it from being executed.  Puts have no such protection and may be
executed any number of times.
 */
module KvServer {
  import WriteLog

  datatype State = State(mp: map<string, string>, cli: map<int, bool>, dup: map<int, string>)

  function Lookup(mp: map<string, string>, key: string): string {
    if key in mp then mp[key] else ""
  }

  /** The bit that the server expects of a client's next Append. */
  function Bit(s: State, id: int): bool {
    id in s.cli && s.cli[id]
  }

  function LastReply(s: State, id: int): string {
    if id in s.dup then s.dup[id] else ""
  }

  function OnAppend(s: State, id: int, bit: bool, key: string, value: string): (State, string) {
    if Bit(s, id) != bit then (s, LastReply(s, id))
    else
      var before := Lookup(s.mp, key);
      (State(s.mp[key := before + value], s.cli[id := !bit], s.dup[id := before]), before)
  }

  function OnPut(s: State, key: string, value: string): State {
    s.(mp := s.mp[key := value])
  }

  class Server {
    var mp: map<string, string>
    var cliMap: map<int, bool>
    var dupMap: map<int, string>

    ghost function View(): State
      reads this
    {
      State(mp, cliMap, dupMap)
    }

    constructor ()
      ensures View() == State(map[], map[], map[])
    {
      mp, cliMap, dupMap := map[], map[], map[];
    }

    method Append(id: int, opstate: bool, key: string, value: string) returns (reply: string)
      modifies this
      ensures (View(), reply) == OnAppend(old(View()), id, opstate, key, value)
    {
      var num := id in cliMap && cliMap[id];
      if num != opstate {
        reply := if id in dupMap then dupMap[id] else "";
        return;
      }
      cliMap := cliMap[id := !num];
      reply := if key in mp then mp[key] else "";
      mp := mp[key := reply + value];
      dupMap := dupMap[id := reply];
    }

    method Get(key: string) returns (reply: string)
      ensures reply == Lookup(View().mp, key)
    {
      reply := if key in mp then mp[key] else "";
    }

    method Put(key: string, value: string)
      modifies this
      ensures View() == OnPut(old(View()), key, value)
    {
      mp := mp[key := value];
    }
  }

  // ----- clients, network and what has happened

  /** A client's bit for its next call, how many calls it has begun, and the one going on. */
  datatype Client = Client(bit: bool, calls: nat, busy: bool, key: string, value: string)

  datatype Event =
    | DidPut(key: string, value: string)
    | DidAppend(id: int, call: nat, key: string, value: string, before: string)

  datatype Returned = Returned(id: int, call: nat, key: string, value: string, reply: string)

  datatype World = World(server: State, clients: int -> Client, events: seq<Event>, returned: seq<Returned>)

  datatype Step =
    | Begin(id: int, key: string, value: string)
    | LosesReply(id: int)
    | GetsReply(id: int)
    | Puts(key: string, value: string)
    | Stray(id: int, call: nat, key: string, value: string)

  ghost predicate Enabled(w: World, step: Step) {
    match step
    case Begin(id, _, _) => !w.clients(id).busy
    case LosesReply(id) => w.clients(id).busy
    case GetsReply(id) => w.clients(id).busy
    case Puts(_, _) => true
    // a copy of an old request; StrayIsRepeatedIff says what the others would do
    case Stray(id, k, _, _) => 1 <= k <= Count(w.events, id) && !IsOdd(Count(w.events, id) - k)
  }

  ghost function SetClient(w: World, id: int, c: Client): World {
    w.(clients := (i: int) => if i == id then c else w.clients(i))
  }

  /** The request of the call going on reaches the server. */
  ghost function Arrive(w: World, id: int): World {
    var c := w.clients(id);
    var bit := !c.bit;
    var (server, reply) := OnAppend(w.server, id, bit, c.key, c.value);
    w.(server := server,
       events := if Bit(w.server, id) == bit
                 then w.events + [DidAppend(id, c.calls, c.key, c.value, Lookup(w.server.mp, c.key))]
                 else w.events)
  }

  ghost function Take(w: World, step: Step): World
    requires Enabled(w, step)
  {
    match step
    case Begin(id, key, value) =>
      var c := w.clients(id);
      SetClient(w, id, Client(!c.bit, c.calls + 1, true, key, value))
    case LosesReply(id) => Arrive(w, id)
    case GetsReply(id) =>
      var c, w' := w.clients(id), Arrive(w, id);
      var reply := OnAppend(w.server, id, !c.bit, c.key, c.value).1;
      SetClient(w', id, c.(busy := false)).(
        returned := w.returned + [Returned(id, c.calls, c.key, c.value, reply)])
    case Puts(key, value) => w.(server := OnPut(w.server, key, value), events := w.events + [DidPut(key, value)])
    case Stray(id, k, key, value) => w.(server := OnAppend(w.server, id, RequestBit(k), key, value).0)
  }

  ghost predicate Initial(w: World) {
    && w.server == State(map[], map[], map[]) && w.events == [] && w.returned == []
    && forall id :: w.clients(id) == Client(false, 0, false, "", "")
  }

  /** One map that has seen the events. */
  ghost function Replay(events: seq<Event>): map<string, string> {
    if events == [] then map[]
    else
      var n := |events| - 1;
      var mp, e := Replay(events[..n]), events[n];
      match e
      case DidPut(key, value) => mp[key := value]
      case DidAppend(_, _, key, value, before) => mp[key := before + value]
  }

  // ----- the invariant

  ghost predicate IsOf(e: Event, id: int, call: nat) {
    e.DidAppend? && e.id == id && e.call == call
  }

  ghost predicate Executed(events: seq<Event>, id: int, call: nat) {
    exists i :: 0 <= i < |events| && IsOf(events[i], id, call)
  }

  predicate IsOdd(n: nat) {
    n % 2 == 1
  }

  /** How many Appends of a client have been executed. */
  ghost function Count(events: seq<Event>, id: int): nat {
    if events == [] then 0
    else
      var e := events[|events| - 1];
      Count(events[..|events| - 1], id) + if e.DidAppend? && e.id == id then 1 else 0
  }

  lemma CountNext(events: seq<Event>, e: Event, id: int)
    ensures Count(events + [e], id) == Count(events, id) + if e.DidAppend? && e.id == id then 1 else 0
  {
    assert (events + [e])[..|events|] == events;
  }

  /** Nothing is executed twice. */
  ghost predicate Once(events: seq<Event>) {
    forall i, j :: 0 <= i < j < |events| && events[i].DidAppend? ==> !IsOf(events[j], events[i].id, events[i].call)
  }

  /** Each execution appended to what was there. */
  ghost predicate BeforeOk(events: seq<Event>) {
    forall i :: 0 <= i < |events| && events[i].DidAppend? ==>
      events[i].before == Lookup(Replay(events[..i]), events[i].key)
  }

  /** The bit tells whether the call going on has been executed, and if so the server still has
      the reply. */
  ghost predicate ClientOk(w: World, id: int) {
    var c := w.clients(id);
    && (!c.busy ==> Bit(w.server, id) == c.bit)
    && (forall i :: 0 <= i < |w.events| && w.events[i].DidAppend? && w.events[i].id == id ==>
          w.events[i].call <= c.calls)
    && (c.busy && Bit(w.server, id) != c.bit ==> !Executed(w.events, id, c.calls))
    && (c.busy && Bit(w.server, id) == c.bit ==>
          Answers(w.events, id, c.calls, c.key, c.value, LastReply(w.server, id)))
    && c.bit == IsOdd(c.calls)
    && (Bit(w.server, id) == c.bit ==> Count(w.events, id) == c.calls)
    && (Bit(w.server, id) != c.bit ==> c.calls > 0 && Count(w.events, id) == c.calls - 1)
  }

  /** The call was executed, and the reply is the value just before. */
  ghost predicate Answers(events: seq<Event>, id: int, call: nat, key: string, value: string, reply: string) {
    exists i :: 0 <= i < |events| && events[i] == DidAppend(id, call, key, value, reply)
  }

  ghost predicate Inv(w: World) {
    && w.server.mp == Replay(w.events) && Once(w.events) && BeforeOk(w.events)
    && (forall id :: ClientOk(w, id))
    && (forall k :: 0 <= k < |w.returned| ==>
          var r := w.returned[k]; Answers(w.events, r.id, r.call, r.key, r.value, r.reply))
  }

  lemma InitialInv(w: World)
    requires Initial(w)
    ensures Inv(w)
  {}

  lemma AnswersLonger(events: seq<Event>, e: Event, id: int, call: nat, key: string, value: string, reply: string)
    requires Answers(events, id, call, key, value, reply)
    ensures Answers(events + [e], id, call, key, value, reply)
  {
    var i :| 0 <= i < |events| && events[i] == DidAppend(id, call, key, value, reply);
    assert (events + [e])[i] == events[i];
  }

  lemma NewAnswers(events: seq<Event>, id: int, call: nat, key: string, value: string, reply: string)
    ensures Answers(events + [DidAppend(id, call, key, value, reply)], id, call, key, value, reply)
  {
    assert (events + [DidAppend(id, call, key, value, reply)])[|events|] == DidAppend(id, call, key, value, reply);
  }

  lemma NotExecutedLonger(events: seq<Event>, e: Event, id: int, call: nat)
    requires !Executed(events, id, call) && !IsOf(e, id, call)
    ensures !Executed(events + [e], id, call)
  {}

  lemma EventsKept(events: seq<Event>, e: Event)
    requires Once(events) && BeforeOk(events)
    requires e.DidAppend? ==> !Executed(events, e.id, e.call) && e.before == Lookup(Replay(events), e.key)
    ensures Once(events + [e]) && BeforeOk(events + [e])
  {
    var all := events + [e];
    forall i | 0 <= i < |all| && all[i].DidAppend?
      ensures all[i].before == Lookup(Replay(all[..i]), all[i].key)
    {
      if i < |events| {
        assert all[..i] == events[..i];
      } else {
        assert all[..i] == events;
      }
    }
    forall i, j | 0 <= i < j < |all| && all[i].DidAppend?
      ensures !IsOf(all[j], all[i].id, all[i].call)
    {
      if j == |events| && e.DidAppend? {
        assert !IsOf(events[i], e.id, e.call);
      }
    }
  }

  /** An event of somebody else leaves a client as it was. */
  lemma OtherClient(w: World, w': World, id: int, e: Event)
    requires ClientOk(w, id) && w'.clients(id) == w.clients(id) && w'.events == w.events + [e]
    requires Bit(w'.server, id) == Bit(w.server, id) && LastReply(w'.server, id) == LastReply(w.server, id)
    requires e.DidAppend? ==> e.id != id
    ensures ClientOk(w', id)
  {
    var c := w.clients(id);
    CountNext(w.events, e, id);
    if c.busy {
      if Bit(w.server, id) != c.bit {
        NotExecutedLonger(w.events, e, id, c.calls);
      } else {
        AnswersLonger(w.events, e, id, c.calls, c.key, c.value, LastReply(w.server, id));
      }
    }
  }

  lemma ReplayNext(events: seq<Event>, e: Event)
    ensures Replay(events + [e]) ==
            match e
            case DidPut(key, value) => Replay(events)[key := value]
            case DidAppend(_, _, key, value, before) => Replay(events)[key := before + value]
  {
    assert (events + [e])[..|events|] == events;
  }

  lemma ReturnedKept(w: World, e: Event)
    requires forall k :: 0 <= k < |w.returned| ==>
               var r := w.returned[k]; Answers(w.events, r.id, r.call, r.key, r.value, r.reply)
    ensures forall k :: 0 <= k < |w.returned| ==>
              var r := w.returned[k]; Answers(w.events + [e], r.id, r.call, r.key, r.value, r.reply)
  {
    forall k | 0 <= k < |w.returned|
      ensures var r := w.returned[k]; Answers(w.events + [e], r.id, r.call, r.key, r.value, r.reply)
    {
      var r := w.returned[k];
      AnswersLonger(w.events, e, r.id, r.call, r.key, r.value, r.reply);
    }
  }

  lemma PutsKeeps(w: World, key: string, value: string)
    requires Inv(w)
    ensures Inv(Take(w, Puts(key, value)))
  {
    hide Once, BeforeOk, ClientOk, Answers, Replay;
    var w', e := Take(w, Puts(key, value)), DidPut(key, value);
    ReplayNext(w.events, e);
    EventsKept(w.events, e);
    ReturnedKept(w, e);
    forall id
      ensures ClientOk(w', id)
    {
      OtherClient(w, w', id, e);
    }
  }

  /** After the request has reached the server, the call has been executed and the server has
      its reply. */
  lemma ArriveKeeps(w: World, id: int)
    requires Inv(w) && w.clients(id).busy
    ensures Inv(Arrive(w, id))
    ensures var c := w.clients(id);
            && Bit(Arrive(w, id).server, id) == c.bit
            && OnAppend(w.server, id, !c.bit, c.key, c.value).1 == LastReply(Arrive(w, id).server, id)
  {
    hide Once, BeforeOk, Answers, Replay, Executed, Count, IsOdd;
    var c, w' := w.clients(id), Arrive(w, id);
    assert ClientOk(w, id);
    if Bit(w.server, id) != c.bit {
      var before := Lookup(w.server.mp, c.key);
      var e := DidAppend(id, c.calls, c.key, c.value, before);
      assert w'.events == w.events + [e];
      ReplayNext(w.events, e);
      EventsKept(w.events, e);
      ReturnedKept(w, e);
      NewAnswers(w.events, id, c.calls, c.key, c.value, before);
      CountNext(w.events, e, id);
      forall i
        ensures ClientOk(w', i)
      {
        if i != id {
          OtherClient(w, w', i, e);
        }
      }
    } else {
      assert w' == w;
    }
  }

  lemma BeginKeeps(w: World, id: int, key: string, value: string)
    requires Inv(w) && !w.clients(id).busy
    ensures Inv(Take(w, Begin(id, key, value)))
  {
    hide Once, BeforeOk, Answers, Replay;
    var w' := Take(w, Begin(id, key, value));
    forall i
      ensures ClientOk(w', i)
    {
      assert ClientOk(w, i);
      assert ClientOk(w, id);
    }
  }

  lemma GetsReplyKeeps(w: World, id: int)
    requires Inv(w) && w.clients(id).busy
    ensures Inv(Take(w, GetsReply(id)))
  {
    hide Once, BeforeOk, Answers, Replay, Executed, OnAppend, Inv;
    ArriveKeeps(w, id);
    var c := w.clients(id);
    SettleKeeps(Arrive(w, id), id, OnAppend(w.server, id, !c.bit, c.key, c.value).1);
  }

  /** The client takes the reply that the server has for it. */
  lemma SettleKeeps(w: World, id: int, reply: string)
    requires Inv(w) && w.clients(id).busy && Bit(w.server, id) == w.clients(id).bit && reply == LastReply(w.server, id)
    ensures var c := w.clients(id);
            Inv(SetClient(w, id, c.(busy := false)).(
                  returned := w.returned + [Returned(id, c.calls, c.key, c.value, reply)]))
  {
    hide Once, BeforeOk, Answers, Replay, Executed;
    var c := w.clients(id);
    assert ClientOk(w, id);
    var w' := SetClient(w, id, c.(busy := false)).(
      returned := w.returned + [Returned(id, c.calls, c.key, c.value, reply)]);
    forall i
      ensures ClientOk(w', i)
    {
      assert ClientOk(w, i);
    }
  }

  /** A stray copy of a request is executed exactly if the parity of its call is not that of the calls
      executed. */
  lemma StrayEffect(w: World, id: int, k: nat, key: string, value: string)
    requires Inv(w) && 1 <= k <= Count(w.events, id)
    ensures var after := OnAppend(w.server, id, RequestBit(k), key, value).0;
            if IsOdd(Count(w.events, id) - k)
            then after.mp == w.server.mp[key := Lookup(w.server.mp, key) + value]
            else after == w.server
  {
    hide Count, Replay;
    assert ClientOk(w, id);
    OddDifference(Count(w.events, id), k);
  }

  ghost predicate Leads(w: World, steps: seq<Step>, last: World)
    decreases |steps|
  {
    if steps == [] then last == w
    else Enabled(w, steps[0]) && Leads(Take(w, steps[0]), steps[1..], last)
  }

  lemma {:induction false} RunsKeep(w: World, steps: seq<Step>, last: World)
    requires Inv(w) && Leads(w, steps, last)
    ensures Inv(last)
    decreases |steps|
  {
    hide Inv;
    if steps != [] {
      match steps[0] {
        case Begin(id, key, value) => BeginKeeps(w, id, key, value);
        case LosesReply(id) => ArriveKeeps(w, id);
        case GetsReply(id) => GetsReplyKeeps(w, id);
        case Puts(key, value) => PutsKeeps(w, key, value);
        case Stray(id, k, key, value) => StrayEffect(w, id, k, key, value);
      }
      RunsKeep(Take(w, steps[0]), steps[1..], last);
    }
  }

  /** An Append that has returned was executed exactly once, and returned the key's value just
      before that execution. */
  lemma AppendOnce(first: World, steps: seq<Step>, w: World, r: Returned) returns (i: nat)
    requires Initial(first) && Leads(first, steps, w) && r in w.returned
    ensures i < |w.events| && w.events[i] == DidAppend(r.id, r.call, r.key, r.value, r.reply)
    ensures r.reply == Lookup(Replay(w.events[..i]), r.key)
    ensures Replay(w.events[..i + 1]) == Replay(w.events[..i])[r.key := r.reply + r.value]
    ensures forall j :: 0 <= j < |w.events| && j != i ==> !IsOf(w.events[j], r.id, r.call)
    ensures w.server.mp == Replay(w.events)
  {
    hide Leads, Inv;
    InitialInv(first);
    RunsKeep(first, steps, w);
    ReturnedAnswers(w, r);
    i := ExecutedOnce(w.events, r);
  }

  lemma ReturnedAnswers(w: World, r: Returned)
    requires Inv(w) && r in w.returned
    ensures Answers(w.events, r.id, r.call, r.key, r.value, r.reply)
    ensures w.server.mp == Replay(w.events) && Once(w.events) && BeforeOk(w.events)
  {
    hide ClientOk, Replay, Once, BeforeOk, Answers;
    var k :| 0 <= k < |w.returned| && w.returned[k] == r;
  }

  lemma ExecutedOnce(events: seq<Event>, r: Returned) returns (i: nat)
    requires Answers(events, r.id, r.call, r.key, r.value, r.reply) && Once(events) && BeforeOk(events)
    ensures i < |events| && events[i] == DidAppend(r.id, r.call, r.key, r.value, r.reply)
    ensures r.reply == Lookup(Replay(events[..i]), r.key)
    ensures Replay(events[..i + 1]) == Replay(events[..i])[r.key := r.reply + r.value]
    ensures forall j :: 0 <= j < |events| && j != i ==> !IsOf(events[j], r.id, r.call)
  {
    hide Replay, Lookup;
    i :| 0 <= i < |events| && events[i] == DidAppend(r.id, r.call, r.key, r.value, r.reply);
    assert events[..i + 1] == events[..i] + [events[i]];
    ReplayNext(events[..i], events[i]);
    NoOther(events, i);
  }

  lemma NoOther(events: seq<Event>, i: nat)
    requires Once(events) && i < |events| && events[i].DidAppend?
    ensures forall j :: 0 <= j < |events| && j != i ==> !IsOf(events[j], events[i].id, events[i].call)
  {}

  // ----- what is stored

  function WriteOf(e: Event): WriteLog.Write {
    match e
    case DidPut(key, value) => WriteLog.Put(key, value)
    case DidAppend(_, _, key, value, _) => WriteLog.Append(key, value)
  }

  function WritesOf(events: seq<Event>): (writes: seq<WriteLog.Write>)
    ensures |writes| == |events|
  {
    seq(|events|, i requires 0 <= i < |events| => WriteOf(events[i]))
  }

  /** Under every key there is what the executed Puts and Appends have left. */
  lemma {:induction false} ReplayIsWritten(events: seq<Event>, key: string)
    requires BeforeOk(events)
    ensures Lookup(Replay(events), key) == WriteLog.ValueOf(WritesOf(events), key)
    decreases |events|
  {
    hide WriteLog.ValueOf;
    if events == [] {
      WriteLog.UntouchedIsEmpty([], key);
    } else {
      var n := |events| - 1;
      var past, e := events[..n], events[n];
      assert events == past + [e];
      PastIsOk(events);
      ReplayNext(past, e);
      ReplayIsWritten(past, key);
      assert WritesOf(events) == WritesOf(past) + [WriteOf(e)];
      WriteLog.ValueNext(WritesOf(past), WriteOf(e), key);
    }
  }

  lemma PastIsOk(events: seq<Event>)
    requires BeforeOk(events) && events != []
    ensures BeforeOk(events[..|events| - 1])
    ensures var e := events[|events| - 1]; e.DidAppend? ==> e.before == Lookup(Replay(events[..|events| - 1]), e.key)
  {
    var past := events[..|events| - 1];
    forall i | 0 <= i < |past| && past[i].DidAppend?
      ensures past[i].before == Lookup(Replay(past[..i]), past[i].key)
    {
      assert past[i] == events[i] && past[..i] == events[..i];
    }
  }

  /** In every reachable world a Get finds the value of the last Put executed on the key followed by those
      of the Appends executed since. */
  lemma GetFindsWhatWasWritten(first: World, steps: seq<Step>, w: World, key: string)
    requires Initial(first) && Leads(first, steps, w)
    ensures Lookup(w.server.mp, key) == WriteLog.ValueOf(WritesOf(w.events), key)
  {
    hide Leads, ClientOk, Answers, Once, BeforeOk, Replay, WriteLog.ValueOf;
    InitialInv(first);
    RunsKeep(first, steps, w);
    ReplayIsWritten(w.events, key);
  }

  // ----- requests that outlive their call

  /** The bit that the requests of a client's k-th call carry. */
  predicate RequestBit(k: nat) {
    !IsOdd(k)
  }

  /** What a client sends is its last call's request. */
  lemma RequestsCarryBit(first: World, steps: seq<Step>, w: World, id: int)
    requires Initial(first) && Leads(first, steps, w) && w.clients(id).busy
    ensures !w.clients(id).bit == RequestBit(w.clients(id).calls)
  {
    hide Leads, Inv;
    InitialInv(first);
    RunsKeep(first, steps, w);
    ClientFacts(w, id);
  }

  lemma ClientFacts(w: World, id: int)
    requires Inv(w)
    ensures ClientOk(w, id)
  {
    hide ClientOk;
  }

  /** One bit is enough only while requests do not outlive their call.  In every reachable world, a stray
      copy of the k-th request of a client, of whose calls e have been executed, is executed again
      exactly if e - k is odd; otherwise it changes nothing. */
  lemma StrayIsRepeatedIff(first: World, steps: seq<Step>, w: World, id: int, k: nat, key: string, value: string)
    requires Initial(first) && Leads(first, steps, w) && 1 <= k <= Count(w.events, id)
    ensures var after := OnAppend(w.server, id, RequestBit(k), key, value).0;
            if IsOdd(Count(w.events, id) - k)
            then after.mp == w.server.mp[key := Lookup(w.server.mp, key) + value]
            else after == w.server
  {
    hide Leads, Inv, Count;
    InitialInv(first);
    RunsKeep(first, steps, w);
    StrayEffect(w, id, k, key, value);
  }

  lemma OddDifference(e: nat, k: nat)
    requires k <= e
    ensures IsOdd(e - k) <==> IsOdd(e) != IsOdd(k)
  {}
}
