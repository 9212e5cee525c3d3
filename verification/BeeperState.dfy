/** The per-chat sync state of a Beeper account and the in-place merge of a
    completed run's state with an interrupted checkpoint. */
module BeeperState {
  import opened Options

  type MessageId = string
  type ChatId = string

  /** An API paging token. The importer only asks whether it is empty and whether two tokens are
      equal; `pos`, the index of the message it stands on, is known to the server alone. */
  datatype Cursor = Null | At(pos: int)

  /** A reply whose parent has to be linked after the walk: the pair [child, parent]. */
  datatype Reply = Reply(child: MessageId, parent: MessageId)

  /** The value of one chat record. */
  datatype Chat = Chat(newest: Cursor, oldest: Cursor, done: bool, pending: seq<Reply>)

  const FRESH := Chat(Null, Null, false, [])

  type Chats = map<ChatId, Chat>

  function Lookup(chats: Chats, id: ChatId): Chat {
    if id in chats then chats[id] else FRESH
  }

  function MergeChat(base: Chat, other: Chat): Chat {
    Chat(
      if other.newest.At? then other.newest else base.newest,
      if other.oldest.At? then other.oldest else base.oldest,
      base.done || other.done,
      if other.pending != [] then other.pending else base.pending)
  }

  function MergeChats(base: Chats, other: Chats): Chats {
    map id | id in base.Keys + other.Keys ::
      if id in other then MergeChat(Lookup(base, id), other[id]) else base[id]
  }

  /** `later` has a value wherever `base` has one. */
  predicate ChatDefines(base: Chat, later: Chat) {
    && (base.newest.At? ==> later.newest.At?)
    && (base.oldest.At? ==> later.oldest.At?)
    && (base.done ==> later.done)
  }

  ghost predicate Defines(base: Chats, later: Chats) {
    base.Keys <= later.Keys && forall id | id in base :: ChatDefines(base[id], later[id])
  }

  /** Merging a baseline with a checkpoint that has a value wherever the baseline has one keeps
      the checkpoint's cursors exactly; only a drained reply buffer falls back to the baseline's. */
  lemma MergeOfDefiningCheckpoint(base: Chats, later: Chats)
    requires Defines(base, later)
    ensures MergeChats(base, later).Keys == later.Keys
    ensures forall id | id in later ::
      MergeChats(base, later)[id] ==
      later[id].(pending := if later[id].pending != [] then later[id].pending else Lookup(base, id).pending)
  {
  }

  /** A merge never loses a value of either side, so resumed states keep defining the baseline. */
  lemma MergeDefinesBoth(base: Chats, other: Chats)
    ensures Defines(base, MergeChats(base, other))
    ensures Defines(other, MergeChats(base, other))
  {
  }

  class ChatState {
    var newest: Cursor
    var oldest: Cursor
    var done: bool
    var pendingReplies: seq<Reply>

    constructor ()
      ensures View() == FRESH
    {
      newest, oldest, done, pendingReplies := Null, Null, false, [];
    }

    function View(): Chat
      reads this
    {
      Chat(newest, oldest, done, pendingReplies)
    }

    /** The per-chat part of SyncState.Merge. */
    method Absorb(ocs: ChatState)
      requires ocs != this
      modifies this
      ensures View() == MergeChat(old(View()), ocs.View())
    {
      if ocs.newest.At? {
        newest := ocs.newest;
      }
      if ocs.oldest.At? {
        oldest := ocs.oldest;
      }
      if |ocs.pendingReplies| > 0 {
        pendingReplies := ocs.pendingReplies;
      }
      done := done || ocs.done;
    }
  }

  class SyncState {
    var chats: map<ChatId, ChatState>
    var anchors: seq<string>
    /** The discovery watermark; RFC3339 text orders like the instant it names, and 0 is "unset". */
    var listWatermark: nat

    constructor ()
      ensures Valid() && Chats() == map[] && anchors == [] && listWatermark == 0
    {
      chats, anchors, listWatermark := map[], [], 0;
    }

    /** Every chat has a record of its own. */
    ghost predicate Valid()
      reads this`chats
    {
      forall a, b | a in chats && b in chats && a != b :: chats[a] != chats[b]
    }

    ghost function Records(): set<ChatState>
      reads this`chats
    {
      set id | id in chats :: chats[id]
    }

    ghost function Chats(): Chats
      reads this`chats, Records()
    {
      map id | id in chats :: chats[id].View()
    }

    method EnsureChat(chatID: ChatId) returns (cs: ChatState)
      requires Valid()
      modifies this`chats
      ensures Valid() && chatID in chats && chats[chatID] == cs
      ensures chatID in old(chats) ==> chats == old(chats)
      ensures chatID !in old(chats) ==> fresh(cs) && chats == old(chats)[chatID := cs]
      ensures Chats() == old(Chats())[chatID := Lookup(old(Chats()), chatID)]
    {
      if chatID in chats {
        cs := chats[chatID];
      } else {
        cs := new ChatState();
        chats := chats[chatID := cs];
      }
    }

    /** One iteration of Merge's loop: the record absorbed belongs to the other state, which stays as it was. */
    method MergeOne(chatID: ChatId, ocs: ChatState, ghost other: SyncState)
      requires Valid() && this != other && Records() !! other.Records()
      requires chatID in other.chats && ocs == other.chats[chatID]
      modifies this`chats, Records()
      ensures Valid() && fresh(Records() - old(Records()))
      ensures Records() !! other.Records()
      ensures other.Chats() == old(other.Chats())
      ensures Chats() == old(Chats())[chatID := MergeChat(Lookup(old(Chats()), chatID), old(other.Chats())[chatID])]
    {
      assert ocs in other.Records();
      AbsorbNamed(chatID, ocs);
      RecordsStay(other);
    }

    /** The record of that ID, created when missing, absorbs the other. */
    method AbsorbNamed(chatID: ChatId, ocs: ChatState)
      requires Valid() && ocs !in Records()
      modifies this`chats, Records()
      ensures Valid() && fresh(Records() - old(Records()))
      ensures Chats() == old(Chats())[chatID := MergeChat(Lookup(old(Chats()), chatID), ocs.View())]
    {
      var cs := EnsureChat(chatID);
      ghost var ensured := Chats();
      AbsorbInto(chatID, ocs);
      assert ensured[chatID] == Lookup(old(Chats()), chatID);
    }

    /** Merging into a record that is there. */
    method AbsorbInto(chatID: ChatId, ocs: ChatState)
      requires Valid() && ocs !in Records() && chatID in chats
      modifies chats[chatID]
      ensures Chats() == old(Chats())[chatID := MergeChat(old(Chats()[chatID]), ocs.View())]
    {
      ghost var before := Chats();
      chats[chatID].Absorb(ocs);
      forall id | id in chats && id != chatID ensures chats[id].View() == before[id] {
        assert chats[id] != chats[chatID];
      }
      assert Chats() == before[chatID := chats[chatID].View()];
    }

    method Merge(other: SyncState)
      requires Valid() && other.Valid() && this != other
      requires Records() !! other.Records()
      modifies this, Records()
      ensures Valid() && fresh(Records() - old(Records()))
      ensures Chats() == MergeChats(old(Chats()), other.Chats())
      ensures other.Chats() == old(other.Chats())
      ensures anchors == if old(anchors) == [] then other.anchors else old(anchors)
      ensures listWatermark == if other.listWatermark > old(listWatermark) then other.listWatermark else old(listWatermark)
    {
      MergeHeader(other);
      MergeRecords(other);
    }

    method MergeHeader(other: SyncState)
      modifies this`anchors, this`listWatermark
      ensures anchors == if old(anchors) == [] then other.anchors else old(anchors)
      ensures listWatermark == if other.listWatermark > old(listWatermark) then other.listWatermark else old(listWatermark)
    {
      if anchors == [] {
        anchors := other.anchors;
      }
      if other.listWatermark > listWatermark {
        listWatermark := other.listWatermark;
      }
    }

    method MergeRecords(other: SyncState)
      requires Valid() && other.Valid() && this != other
      requires Records() !! other.Records()
      modifies this`chats, Records()
      ensures Valid() && fresh(Records() - old(Records()))
      ensures Chats() == MergeChats(old(Chats()), other.Chats())
      ensures other.Chats() == old(other.Chats())
    {
      ghost var before, others := Chats(), other.Chats();
      var todo := other.chats.Keys;
      while todo != {}
        invariant todo <= others.Keys
        invariant Valid() && fresh(Records() - old(Records()))
        invariant Records() !! other.Records()
        invariant other.chats == old(other.chats) && other.Chats() == others
        invariant Chats() == MergeChats(before, others - todo)
        decreases todo
      {
        var chatID :| chatID in todo;
        MergeOne(chatID, other.chats[chatID], other);
        MergeOneMore(before, others, todo, chatID);
        todo := todo - {chatID};
      }
      assert others - {} == others;
    }
  }

  /** A state none of whose objects changed still reads the same. */
  twostate lemma RecordsStay(other: SyncState)
    requires unchanged(other`chats) && forall c | c in old(other.Records()) :: unchanged(c)
    ensures other.Chats() == old(other.Chats())
  {
  }

  lemma MergeOneMore(base: Chats, other: Chats, todo: set<ChatId>, id: ChatId)
    requires id in todo && todo <= other.Keys
    ensures MergeChats(base, other - (todo - {id})) ==
            MergeChats(base, other - todo)[id := MergeChat(Lookup(MergeChats(base, other - todo), id), other[id])]
  {
  }
}
