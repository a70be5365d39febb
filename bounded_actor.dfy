/**
 * The ticket-store actor with a bounded mailbox: clients turn `insert` and
 * `get` into commands, try to enqueue them without blocking, and fail with
 * `OverloadedError` when the mailbox is full; one server owns the store,
 * takes commands off the mailbox in arrival order and answers each one on
 * the reply channel the command carries.
 *
 * Threads are not modelled. The actor is a state machine: client calls
 * enqueue, `Step` is one turn of the server's loop, and a client that waits
 * for its reply is modelled by running the server until the mailbox is
 * empty, which includes the caller's own command. The pure part below
 * defines what a run of the server over a sequence of commands computes;
 * the class `TicketService` is proved against it.
 */
module BoundedActor {
  import opened Wrappers
  import opened TicketStore

  /** Names one per-call reply channel (`sync_channel(1)` in each client call). */
  type ChannelId = nat

  datatype Command =
    | Insert(draft: TicketDraft, channel: ChannelId)
    | Get(id: TicketId, channel: ChannelId)

  /** What the server sends on a command's reply channel. */
  datatype Reply = Inserted(id: TicketId) | Fetched(ticket: Option<Ticket>)

  datatype OverloadedError = OverloadedError

  /** What one receive of the server's loop did. */
  datatype StepOutcome =
    | Served   // a command was received and answered
    | Waiting  // the mailbox is empty and a sender is still alive: `recv` blocks
    | Stopped  // the mailbox is empty and every sender is gone: the loop breaks

  /** One arm of the server's `match`: the store afterwards and the reply sent. */
  function Handle(s: Store, c: Command): (r: (Store, Reply))
    requires s.Valid()
    ensures r.0.Valid()
    ensures c.Insert? ==> r.1 == Inserted(AddTicket(s, c.draft).1) && r.0 == AddTicket(s, c.draft).0
    ensures c.Get? ==> r.1 == Fetched(GetTicket(s, c.id)) && r.0 == s
  {
    match c
    case Insert(draft, _) =>
      var (s', id) := AddTicket(s, draft);
      (s', Inserted(id))
    case Get(id, _) =>
      (s, Fetched(GetTicket(s, id)))
  }

  /**
   * The server handling `cmds` one at a time, in order, from store `s`:
   * the final store and the replies, one per command.
   */
  function Serve(s: Store, cmds: seq<Command>): (r: (Store, seq<Reply>))
    requires s.Valid()
    ensures r.0.Valid() && |r.1| == |cmds|
    ensures s.nextId <= r.0.nextId
    decreases |cmds|
  {
    if cmds == [] then (s, [])
    else
      var before := Serve(s, cmds[..|cmds| - 1]);
      var last := Handle(before.0, cmds[|cmds| - 1]);
      (last.0, before.1 + [last.1])
  }

  /** Handling one more command extends the run by that command's handling. */
  lemma ServeSnoc(s: Store, cmds: seq<Command>, c: Command)
    requires s.Valid()
    ensures var before := Serve(s, cmds); var last := Handle(before.0, c);
      Serve(s, cmds + [c]) == (last.0, before.1 + [last.1])
  {
    assert (cmds + [c])[..|cmds|] == cmds;
  }

  /** A run over `a + b` is the run over `a` followed by the run over `b`. */
  lemma {:induction false} ServeAppend(s: Store, a: seq<Command>, b: seq<Command>)
    requires s.Valid()
    ensures Serve(s, a + b).0 == Serve(Serve(s, a).0, b).0
    ensures Serve(s, a + b).1 == Serve(s, a).1 + Serve(Serve(s, a).0, b).1
  {
    if b == [] {
      assert a + b == a;
    } else {
      var b', c := b[..|b| - 1], b[|b| - 1];
      assert b == b' + [c];
      assert a + b == (a + b') + [c];
      ServeAppend(s, a, b');
      ServeSnoc(s, a + b', c);
      ServeSnoc(Serve(s, a).0, b', c);
    }
  }

  /**
   * FIFO service, one command at a time: the i-th reply is the i-th command
   * handled against the store that the commands before it left.
   */
  lemma ServeInOrder(s: Store, cmds: seq<Command>, i: nat)
    requires s.Valid() && i < |cmds|
    ensures Serve(s, cmds).1[i] == Handle(Serve(s, cmds[..i]).0, cmds[i]).1
    ensures Serve(s, cmds[..i + 1]).0 == Handle(Serve(s, cmds[..i]).0, cmds[i]).0
  {
    assert cmds[..i + 1] == cmds[..i] + [cmds[i]];
    ServeSnoc(s, cmds[..i], cmds[i]);
    assert cmds == cmds[..i + 1] + cmds[i + 1..];
    ServeAppend(s, cmds[..i + 1], cmds[i + 1..]);
  }

  /** Each command gets a reply of its own kind: an id for an insert, a lookup for a get. */
  lemma OneReplyPerCommand(s: Store, cmds: seq<Command>)
    requires s.Valid()
    ensures |Serve(s, cmds).1| == |cmds|
    ensures forall i :: 0 <= i < |cmds| ==> (cmds[i].Insert? <==> Serve(s, cmds).1[i].Inserted?)
  {
    forall i | 0 <= i < |cmds| ensures cmds[i].Insert? <==> Serve(s, cmds).1[i].Inserted? {
      ServeInOrder(s, cmds, i);
    }
  }

  /** Only inserts change the store: a run of gets leaves it as it was. */
  lemma {:induction false} GetsLeaveStoreUnchanged(s: Store, cmds: seq<Command>)
    requires s.Valid()
    requires forall i :: 0 <= i < |cmds| ==> cmds[i].Get?
    ensures Serve(s, cmds).0 == s
  {
    if cmds != [] {
      GetsLeaveStoreUnchanged(s, cmds[..|cmds| - 1]);
    }
  }

  /** A run never drops or alters a ticket that is already stored. */
  lemma {:induction false} ServeKeepsTickets(s: Store, cmds: seq<Command>, id: TicketId)
    requires s.Valid() && id in s.tickets
    ensures id in Serve(s, cmds).0.tickets && Serve(s, cmds).0.tickets[id] == s.tickets[id]
  {
    if cmds != [] {
      ServeKeepsTickets(s, cmds[..|cmds| - 1], id);
    }
  }

  /** The counter never goes back: a longer run ends with a counter at least as large. */
  lemma ServeCounterGrows(s: Store, cmds: seq<Command>, i: nat, j: nat)
    requires s.Valid() && i <= j <= |cmds|
    ensures Serve(s, cmds[..i]).0.nextId <= Serve(s, cmds[..j]).0.nextId
  {
    assert cmds[..j] == cmds[..i] + cmds[i..j];
    ServeAppend(s, cmds[..i], cmds[i..j]);
  }

  /** Ids handed out by a run are fresh and strictly increasing in the order the inserts were served. */
  lemma InsertIdsIncrease(s: Store, cmds: seq<Command>, i: nat, j: nat)
    requires s.Valid() && i < j < |cmds|
    requires cmds[i].Insert? && cmds[j].Insert?
    ensures Serve(s, cmds).1[i].Inserted? && Serve(s, cmds).1[j].Inserted?
    ensures s.nextId <= Serve(s, cmds).1[i].id < Serve(s, cmds).1[j].id
  {
    ServeInOrder(s, cmds, i);
    ServeInOrder(s, cmds, j);
    ServeCounterGrows(s, cmds, 0, i);
    ServeCounterGrows(s, cmds, i + 1, j);
  }

  /**
   * Round trip: a get served after an insert, for the id that insert
   * returned, replies with the ticket built from the inserted draft.
   */
  lemma GetFindsEarlierInsert(s: Store, cmds: seq<Command>, i: nat, j: nat)
    requires s.Valid() && i < j < |cmds|
    requires cmds[i].Insert? && cmds[j].Get?
    requires Serve(s, cmds).1[i] == Inserted(cmds[j].id)
    ensures Serve(s, cmds).1[j] == Fetched(Some(NewTicket(cmds[j].id, cmds[i].draft)))
  {
    var id, draft := cmds[j].id, cmds[i].draft;
    ServeInOrder(s, cmds, i);
    var beforeInsert := Serve(s, cmds[..i]).0;
    var afterInsert := Serve(s, cmds[..i + 1]).0;
    assert afterInsert == AddTicket(beforeInsert, draft).0 && id == AddTicket(beforeInsert, draft).1;
    assert id in afterInsert.tickets && afterInsert.tickets[id] == NewTicket(id, draft);
    assert cmds[..j] == cmds[..i + 1] + cmds[i + 1..j];
    ServeAppend(s, cmds[..i + 1], cmds[i + 1..j]);
    ServeKeepsTickets(afterInsert, cmds[i + 1..j], id);
    var beforeGet := Serve(s, cmds[..j]).0;
    assert beforeGet.tickets[id] == NewTicket(id, draft);
    ServeInOrder(s, cmds, j);
  }


  /** A get for an id the store has not handed out when the get is served replies `None`. */
  lemma GetOfUnissuedId(s: Store, cmds: seq<Command>, j: nat)
    requires s.Valid() && j < |cmds| && cmds[j].Get?
    requires cmds[j].id >= Serve(s, cmds[..j]).0.nextId
    ensures Serve(s, cmds).1[j] == Fetched(None)
  {
    ServeInOrder(s, cmds, j);
  }

  /** Each received command's channel holds its reply. */
  ghost predicate Answered(received: seq<Command>, replies: seq<Reply>, channels: map<ChannelId, Option<Reply>>)
    requires |replies| == |received|
  {
    forall i :: 0 <= i < |received| ==>
      received[i].channel in channels && channels[received[i].channel] == Some(replies[i])
  }

  /** Each waiting command's channel is still empty, and waiting channels are increasing. */
  ghost predicate Pending(mailbox: seq<Command>, channels: map<ChannelId, Option<Reply>>) {
    && (forall i :: 0 <= i < |mailbox| ==> mailbox[i].channel in channels && channels[mailbox[i].channel] == None)
    && (forall i, j :: 0 <= i < j < |mailbox| ==> mailbox[i].channel < mailbox[j].channel)
  }

  /** Every reply already delivered in `before` is still there, unchanged, in `after`. */
  ghost predicate KeepsReplies(before: map<ChannelId, Option<Reply>>, after: map<ChannelId, Option<Reply>>) {
    forall ch :: ch in before && before[ch].Some? ==> ch in after && after[ch] == before[ch]
  }

  /** Opening a fresh channel, and then keeping replies, keeps the replies delivered before it was opened. */
  lemma KeepsRepliesAfterOpening(before: map<ChannelId, Option<Reply>>, ch: ChannelId, after: map<ChannelId, Option<Reply>>)
    requires ch !in before && KeepsReplies(before[ch := None], after)
    ensures KeepsReplies(before, after)
  {
    forall c | c in before && before[c].Some?
      ensures c in after && after[c] == before[c]
    {
      assert before[ch := None][c] == before[c];
    }
  }

  /** Answering the head of the mailbox moves it from the pending commands to the answered ones. */
  lemma AnswerPreservesChannels(received: seq<Command>, replies: seq<Reply>, mailbox: seq<Command>,
                                channels: map<ChannelId, Option<Reply>>, reply: Reply)
    requires |replies| == |received| && mailbox != []
    requires Answered(received, replies, channels) && Pending(mailbox, channels)
    ensures var channels' := channels[mailbox[0].channel := Some(reply)];
      Answered(received + [mailbox[0]], replies + [reply], channels') && Pending(mailbox[1..], channels')
  {
    var channels' := channels[mailbox[0].channel := Some(reply)];
    forall i | 0 <= i < |received|
      ensures received[i].channel != mailbox[0].channel
    {
      assert channels[received[i].channel].Some?;
    }
    assert forall i :: 0 <= i < |mailbox[1..]| ==> mailbox[1..][i] == mailbox[i + 1];
  }

  lemma AnsweredAt(received: seq<Command>, replies: seq<Reply>, channels: map<ChannelId, Option<Reply>>, k: nat)
    requires |replies| == |received| && k < |received|
    requires Answered(received, replies, channels)
    ensures received[k].channel in channels && channels[received[k].channel] == Some(replies[k])
  {
  }

  /**
   * Once the server has answered a backlog that ends in `c`, the store and
   * `c`'s reply are those of handling `c` after the commands ahead of it.
   */
  lemma LastCommandAnswered(s: Store, ahead: seq<Command>, c: Command, channels: map<ChannelId, Option<Reply>>)
    requires s.Valid()
    requires Answered(ahead + [c], Serve(s, ahead + [c]).1, channels)
    ensures var (s', reply) := Handle(Serve(s, ahead).0, c);
      Serve(s, ahead + [c]).0 == s' && c.channel in channels && channels[c.channel] == Some(reply)
    ensures Answered(ahead, Serve(s, ahead).1, channels)
  {
    ServeSnoc(s, ahead, c);
    var (s', reply) := Handle(Serve(s, ahead).0, c);
    AnsweredPrefix(ahead, c, Serve(s, ahead).1, reply, channels);
  }

  /** The answers to a received sequence with one more command appended include those of the sequence itself. */
  lemma AnsweredPrefix(ahead: seq<Command>, c: Command, replies: seq<Reply>, reply: Reply,
                       channels: map<ChannelId, Option<Reply>>)
    requires |replies| == |ahead|
    requires Answered(ahead + [c], replies + [reply], channels)
    ensures Answered(ahead, replies, channels)
    ensures c.channel in channels && channels[c.channel] == Some(reply)
  {
    AnsweredAt(ahead + [c], replies + [reply], channels, |ahead|);
    forall i | 0 <= i < |ahead|
      ensures ahead[i].channel in channels && channels[ahead[i].channel] == Some(replies[i])
    {
      AnsweredAt(ahead + [c], replies + [reply], channels, i);
      assert (ahead + [c])[i] == ahead[i] && (replies + [reply])[i] == replies[i];
    }
  }

  /** The answers to the later part of a received sequence are those of that part's own replies. */
  lemma AnsweredSuffix(prior: seq<Command>, backlog: seq<Command>, earlier: seq<Reply>, later: seq<Reply>,
                       channels: map<ChannelId, Option<Reply>>)
    requires |earlier| == |prior| && |later| == |backlog|
    requires Answered(prior + backlog, earlier + later, channels)
    ensures Answered(backlog, later, channels)
  {
    forall i | 0 <= i < |backlog|
      ensures backlog[i].channel in channels && channels[backlog[i].channel] == Some(later[i])
    {
      var k := |prior| + i;
      assert (prior + backlog)[k] == backlog[i] && (earlier + later)[k] == later[i];
    }
  }

  /**
   * Once a backlog received after `prior` has been answered, the store and
   * the replies are those of serving the backlog alone, from the store that
   * `prior` left.
   */
  lemma BacklogAnswered(prior: seq<Command>, backlog: seq<Command>, channels: map<ChannelId, Option<Reply>>)
    requires Answered(prior + backlog, Serve(Empty(), prior + backlog).1, channels)
    ensures Serve(Empty(), prior + backlog).0 == Serve(Serve(Empty(), prior).0, backlog).0
    ensures Answered(backlog, Serve(Serve(Empty(), prior).0, backlog).1, channels)
  {
    ServeAppend(Empty(), prior, backlog);
    AnsweredSuffix(prior, backlog, Serve(Empty(), prior).1, Serve(Serve(Empty(), prior).0, backlog).1, channels);
  }

  /**
   * The running system made by `launch`: the bounded mailbox, the client
   * handles that can still send into it, and the server with its store.
   */
  class TicketService {
    /** The mailbox's capacity, fixed by `launch`. */
    const capacity: nat
    /** Commands accepted by `try_send` and not yet received by the server, head first. */
    var mailbox: seq<Command>
    /** Live `TicketStoreClient` handles; each holds one sending end of the mailbox. */
    var senders: nat
    /** The server thread is still in its loop. */
    var running: bool
    /** The store the server owns. */
    var store: Store
    /** The reply channels of admitted commands: `None` until the server has answered. */
    var channels: map<ChannelId, Option<Reply>>
    /** The next fresh reply channel. */
    var nextChannel: ChannelId
    /** Every command the server has received, in the order it received them. */
    ghost var received: seq<Command>

    ghost predicate Valid()
      reads this
    {
      && 1 <= capacity
      && |mailbox| <= capacity
      // the store is what serving the received commands in order made of an
      // empty store, and each of them has been answered with its reply in that run
      && (var run := Serve(Empty(), received); store == run.0 && Answered(received, run.1, channels))
      // each waiting command has its own, still empty, reply channel
      && Pending(mailbox, channels)
      && (forall ch :: ch in channels ==> ch < nextChannel)
      // the server stops only once the mailbox is empty and closed
      && (!running ==> mailbox == [] && senders == 0)
    }

    /** `launch(capacity)`: an empty mailbox, one client handle, and a server over an empty store. */
    constructor Launch(capacity: nat)
      requires capacity >= 1
      ensures Valid()
      ensures this.capacity == capacity && mailbox == [] && senders == 1 && running
      ensures store == Empty() && received == []
    {
      this.capacity := capacity;
      mailbox := [];
      senders := 1;
      running := true;
      store := Empty();
      channels := map[];
      nextChannel := 0;
      received := [];
    }

    /** `try_send(command)` for a command on the next fresh reply channel: it fails, changing nothing, when the mailbox is full. */
    method TrySend(command: Command) returns (sent: bool)
      requires Valid() && senders >= 1 && command.channel == nextChannel
      modifies this`mailbox, this`channels, this`nextChannel
      ensures Valid()
      ensures sent <==> |old(mailbox)| < capacity
      ensures !sent ==> unchanged(this)
      ensures sent ==> mailbox == old(mailbox) + [command] && nextChannel == old(nextChannel) + 1
      ensures sent ==> channels == old(channels)[command.channel := None]
    {
      if |mailbox| == capacity {
        return false;
      }
      channels := channels[command.channel := None];
      mailbox := mailbox + [command];
      nextChannel := nextChannel + 1;
      sent := true;
    }

    /** The enqueue half of `insert`: the reply channel to wait on, or `OverloadedError`. */
    method TrySendInsert(draft: TicketDraft) returns (r: Result<ChannelId, OverloadedError>)
      requires Valid() && senders >= 1
      modifies this`mailbox, this`channels, this`nextChannel
      ensures Valid()
      ensures |old(mailbox)| == capacity ==> r == Err(OverloadedError) && unchanged(this)
      ensures |old(mailbox)| < capacity ==> r == Ok(old(nextChannel)) && mailbox == old(mailbox) + [Command.Insert(draft, r.value)]
      ensures |old(mailbox)| < capacity ==> old(nextChannel) !in old(channels) && channels == old(channels)[r.value := None]
    {
      var channel := nextChannel;
      var sent := TrySend(Command.Insert(draft, channel));
      r := if sent then Ok(channel) else Err(OverloadedError);
    }

    /** The enqueue half of `get`: the reply channel to wait on, or `OverloadedError`. */
    method TrySendGet(id: TicketId) returns (r: Result<ChannelId, OverloadedError>)
      requires Valid() && senders >= 1
      modifies this`mailbox, this`channels, this`nextChannel
      ensures Valid()
      ensures |old(mailbox)| == capacity ==> r == Err(OverloadedError) && unchanged(this)
      ensures |old(mailbox)| < capacity ==> r == Ok(old(nextChannel)) && mailbox == old(mailbox) + [Command.Get(id, r.value)]
      ensures |old(mailbox)| < capacity ==> old(nextChannel) !in old(channels) && channels == old(channels)[r.value := None]
    {
      var channel := nextChannel;
      var sent := TrySend(Command.Get(id, channel));
      r := if sent then Ok(channel) else Err(OverloadedError);
    }

    /**
     * One turn of the server's loop: `receiver.recv()` and the arm that
     * handles what it returned.
     */
    method Step() returns (o: StepOutcome)
      requires Valid() && running
      modifies this`mailbox, this`received, this`store, this`channels, this`running
      ensures Valid()
      ensures old(mailbox) != [] ==> o == Served && running
      ensures old(mailbox) != [] ==>
        var (s', reply) := Handle(old(store), old(mailbox)[0]);
        && mailbox == old(mailbox)[1..] && received == old(received) + [old(mailbox)[0]]
        && store == s' && channels == old(channels)[old(mailbox)[0].channel := Some(reply)]
      ensures old(mailbox) == [] && old(senders) > 0 ==> o == Waiting && unchanged(this)
      ensures old(mailbox) == [] && old(senders) == 0 ==> o == Stopped && !running
      ensures old(mailbox) == [] ==> mailbox == [] && received == old(received) && store == old(store) && channels == old(channels)
      ensures KeepsReplies(old(channels), channels)
      ensures channels.Keys == old(channels).Keys
    {
      if mailbox == [] {
        if senders == 0 {
          // every sender is gone: the receive fails and the loop breaks
          running := false;
          o := Stopped;
        } else {
          o := Waiting;
        }
        return;
      }
      var command := mailbox[0];
      var (s', reply) := Handle(store, command);
      ghost var replies := Serve(Empty(), received).1;
      ServeSnoc(Empty(), received, command);
      AnswerPreservesChannels(received, replies, mailbox, channels, reply);
      mailbox := mailbox[1..];
      received := received + [command];
      store := s';
      channels := channels[command.channel := Some(reply)];
      o := Served;
    }

    /**
     * `server`: the loop of receives, run until a receive finds the mailbox
     * empty. Then the loop either blocks (`Waiting`, a client is alive) or
     * breaks (`Stopped`, every sender is gone), its only exit.
     */
    method Server() returns (o: StepOutcome)
      requires Valid() && running
      modifies this`mailbox, this`received, this`store, this`channels, this`running
      ensures Valid()
      ensures o != Served && mailbox == [] && received == old(received) + old(mailbox)
      ensures o == Stopped <==> old(senders) == 0
      ensures running <==> o == Waiting
      ensures store == Serve(old(store), old(mailbox)).0
      ensures Answered(old(mailbox), Serve(old(store), old(mailbox)).1, channels)
      ensures KeepsReplies(old(channels), channels)
      ensures channels.Keys == old(channels).Keys
    {
      o := Served;
      while o == Served
        invariant Valid()
        invariant o == Served ==> running
        invariant received + mailbox == old(received) + old(mailbox)
        invariant o != Served ==> mailbox == [] && (o == Stopped <==> senders == 0) && (running <==> o == Waiting)
        invariant senders == old(senders)
        invariant KeepsReplies(old(channels), channels)
        invariant channels.Keys == old(channels).Keys
        decreases |mailbox|, if o == Served then 1 else 0
      {
        ghost var waiting := mailbox;
        o := Step();
        assert waiting != [] ==> waiting == [waiting[0]] + mailbox;
      }
      assert received == old(received) + old(mailbox);
      BacklogAnswered(old(received), old(mailbox), channels);
    }

    /**
     * `receiver.recv()` on the reply channel of the command last enqueued:
     * the caller is suspended while the server works through the mailbox,
     * its own command last, and then the reply is there. The caller still
     * holds a sender, so the server cannot stop first: the disconnected-reply
     * path (a panic in `insert`, an `unwrap` in `get`) is unreachable.
     */
    method AwaitReply(channel: ChannelId) returns (reply: Reply)
      requires Valid() && senders >= 1
      requires mailbox != [] && mailbox[|mailbox| - 1].channel == channel
      modifies this`mailbox, this`received, this`store, this`channels, this`running
      ensures Valid() && running && mailbox == []
      ensures var ahead := old(mailbox)[..|old(mailbox)| - 1];
        var (s', r) := Handle(Serve(old(store), ahead).0, old(mailbox)[|old(mailbox)| - 1]);
        reply == r && store == s'
      ensures Answered(old(mailbox), Serve(old(store), old(mailbox)).1, channels)
      ensures var ahead := old(mailbox)[..|old(mailbox)| - 1];
        Answered(ahead, Serve(old(store), ahead).1, channels)
      ensures KeepsReplies(old(channels), channels)
    {
      ghost var ahead, command := mailbox[..|mailbox| - 1], mailbox[|mailbox| - 1];
      ghost var before := store;
      assert mailbox == ahead + [command];
      var _ := Server();
      LastCommandAnswered(before, ahead, command, channels);
      reply := channels[channel].value;
    }

    /**
     * `insert`: try to enqueue the command, then wait for the id, which the
     * server assigns once it has worked through the commands ahead of this
     * one. On overload nothing at all changes.
     */
    method Insert(draft: TicketDraft) returns (r: Result<TicketId, OverloadedError>)
      requires Valid() && senders >= 1
      modifies this`mailbox, this`received, this`store, this`channels, this`nextChannel, this`running
      ensures Valid() && senders == old(senders)
      ensures |old(mailbox)| == capacity ==> r == Err(OverloadedError) && unchanged(this)
      ensures |old(mailbox)| < capacity ==>
        var ahead := Serve(old(store), old(mailbox)).0;
        && r == Ok(AddTicket(ahead, draft).1)
        && store == AddTicket(ahead, draft).0
        && mailbox == [] && running
      // every command queued ahead of this one has been answered on its own channel
      ensures |old(mailbox)| < capacity ==> Answered(old(mailbox), Serve(old(store), old(mailbox)).1, channels)
      // a reply already delivered to another caller stays on its channel
      ensures KeepsReplies(old(channels), channels)
    {
      var sent := TrySendInsert(draft);
      if sent.Err? {
        return Err(OverloadedError);
      }
      assert mailbox[..|mailbox| - 1] == old(mailbox);
      var reply := AwaitReply(sent.value);
      KeepsRepliesAfterOpening(old(channels), sent.value, channels);
      r := Ok(reply.id);
    }

    /**
     * `get`: try to enqueue the command, then wait for a copy of the ticket
     * stored under `id`, if any. On overload nothing at all changes;
     * otherwise the store changes only by the commands ahead of this one.
     */
    method Get(id: TicketId) returns (r: Result<Option<Ticket>, OverloadedError>)
      requires Valid() && senders >= 1
      modifies this`mailbox, this`received, this`store, this`channels, this`nextChannel, this`running
      ensures Valid() && senders == old(senders)
      ensures |old(mailbox)| == capacity ==> r == Err(OverloadedError) && unchanged(this)
      ensures |old(mailbox)| < capacity ==>
        var ahead := Serve(old(store), old(mailbox)).0;
        && r == Ok(GetTicket(ahead, id))
        && store == ahead
        && mailbox == [] && running
      // every command queued ahead of this one has been answered on its own channel
      ensures |old(mailbox)| < capacity ==> Answered(old(mailbox), Serve(old(store), old(mailbox)).1, channels)
      // a reply already delivered to another caller stays on its channel
      ensures KeepsReplies(old(channels), channels)
    {
      var sent := TrySendGet(id);
      if sent.Err? {
        return Err(OverloadedError);
      }
      assert mailbox[..|mailbox| - 1] == old(mailbox);
      var reply := AwaitReply(sent.value);
      KeepsRepliesAfterOpening(old(channels), sent.value, channels);
      r := Ok(reply.ticket);
    }

    /** `#[derive(Clone)]` on the client: one more sending end of the same mailbox. */
    method CloneClient()
      requires Valid() && senders >= 1
      modifies this`senders
      ensures Valid() && senders == old(senders) + 1
    {
      senders := senders + 1;
    }

    /** Dropping a client handle gives up its sending end. */
    method DropClient()
      requires Valid() && senders >= 1
      modifies this`senders
      ensures Valid() && senders == old(senders) - 1
    {
      senders := senders - 1;
    }
  }

  /**
   * A client session on a mailbox of capacity one: two inserts get ids 0
   * and 1, each id looks up the ticket inserted under it, an id never
   * handed out looks up nothing, and once the only client is dropped the
   * server stops.
   */
  method ExampleSession() returns (first: Result<TicketId, OverloadedError>, fetched: Result<Option<Ticket>, OverloadedError>,
                                   second: Result<TicketId, OverloadedError>, fetchedSecond: Result<Option<Ticket>, OverloadedError>,
                                   missing: Result<Option<Ticket>, OverloadedError>, last: StepOutcome)
    ensures first == Ok(0) && second == Ok(1)
    ensures fetched == Ok(Some(NewTicket(0, TicketDraft("a", "b"))))
    ensures fetchedSecond == Ok(Some(NewTicket(1, TicketDraft("c", "d"))))
    ensures missing == Ok(None)
    ensures last == Stopped
  {
    var service := new TicketService.Launch(1);
    var ab, cd := TicketDraft("a", "b"), TicketDraft("c", "d");
    first := service.Insert(ab);
    ghost var one := Store(map[0 := NewTicket(0, ab)], 1);
    assert service.store == one;
    fetched := service.Get(0);
    assert service.store == one;
    second := service.Insert(cd);
    ghost var both := Store(map[0 := NewTicket(0, ab), 1 := NewTicket(1, cd)], 2);
    assert service.store == both;
    fetchedSecond := service.Get(1);
    assert service.store == both;
    missing := service.Get(99);
    service.DropClient();
    last := service.Server();
  }

  /**
   * Two callers share one server: a command enqueued by one caller is
   * answered on its own channel when another caller's `insert` drains the
   * mailbox ahead of its own command, and a later `insert` leaves that
   * reply where it is.
   */
  method TwoCallersSession() returns (queued: Result<ChannelId, OverloadedError>, second: Result<TicketId, OverloadedError>,
                                      third: Result<TicketId, OverloadedError>, earlier: Option<Reply>)
    ensures queued.Ok? && earlier == Some(Inserted(0))
    ensures second == Ok(1) && third == Ok(2)
  {
    var ab, cd, ef := TicketDraft("a", "b"), TicketDraft("c", "d"), TicketDraft("e", "f");
    var service := new TicketService.Launch(2);
    queued := service.TrySendInsert(ab);
    service.CloneClient();
    assert service.mailbox == [] + [Insert(ab, queued.value)];
    ServeSnoc(Empty(), [], Insert(ab, queued.value));
    second := service.Insert(cd);
    ghost var both := Store(map[0 := NewTicket(0, ab), 1 := NewTicket(1, cd)], 2);
    assert service.store == both;
    assert service.channels[queued.value] == Some(Inserted(0));
    third := service.Insert(ef);
    earlier := service.channels[queued.value];
  }

  /**
   * Admission control: with capacity one and nothing drained, the second
   * enqueue is refused and leaves the mailbox and the store as they were.
   */
  method OverloadSession() returns (accepted: Result<ChannelId, OverloadedError>, refused: Result<ChannelId, OverloadedError>,
                                    pending: seq<Command>, ids: TicketId)
    ensures accepted.Ok? && refused == Err(OverloadedError)
    ensures pending == [Insert(TicketDraft("a", "b"), accepted.value)]
    ensures ids == 0
  {
    var service := new TicketService.Launch(1);
    accepted := service.TrySendInsert(TicketDraft("a", "b"));
    refused := service.TrySendGet(0);
    pending := service.mailbox;
    ids := service.store.nextId;
  }
}
