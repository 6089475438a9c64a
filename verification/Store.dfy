/**
 The store: a database and the readers that wait for keys which are not written yet.
 */
module Stores {
  import opened Wrappers
  import opened Messages

  /** Blocks and payloads are stored under keys of their own. */
  datatype Key = BlockKey(block: Digest) | PayloadKey(payload: PayloadDigest)

  type Value = nat

  /** Who reads: the waiters of the two synchronizers, each over a channel of its own. */
  datatype Reader = ParentReader(id: nat) | PayloadReader(id: nat)

  datatype Command = Write(key: Key, value: Value) | NotifyRead(key: Key, reader: Reader)

  datatype Reply = Reply(key: Key, reader: Reader, value: Value)

  datatype StoreState = StoreState(db: map<Key, Value>, obligations: map<Key, seq<Reader>>, replies: seq<Reply>)

  const EMPTY_STORE := StoreState(map[], map[], [])

  function Replies(key: Key, readers: seq<Reader>, value: Value): seq<Reply> {
    seq(|readers|, i requires 0 <= i < |readers| => Reply(key, readers[i], value))
  }

  function Execute(s: StoreState, c: Command): StoreState {
    match c
    case Write(k, v) =>
      StoreState(s.db[k := v], s.obligations - {k},
                 s.replies + if k in s.obligations then Replies(k, s.obligations[k], v) else [])
    case NotifyRead(k, r) =>
      if k in s.db then s.(replies := s.replies + [Reply(k, r, s.db[k])])
      else s.(obligations := s.obligations[k := (if k in s.obligations then s.obligations[k] else []) + [r]])
  }

  function ExecuteAll(commands: seq<Command>): StoreState {
    if commands == [] then EMPTY_STORE
    else Execute(ExecuteAll(commands[..|commands| - 1]), commands[|commands| - 1])
  }

  class Store {
    var db: map<Key, Value>
    var obligations: map<Key, seq<Reader>>
    var replies: seq<Reply>

    function State(): StoreState
      reads this
    {
      StoreState(db, obligations, replies)
    }

    constructor ()
      ensures State() == EMPTY_STORE
    {
      db, obligations, replies := map[], map[], [];
    }

    method Write(key: Key, value: Value)
      modifies this
      ensures State() == Execute(old(State()), Command.Write(key, value))
    {
      db := db[key := value];
      if key in obligations {
        var senders := obligations[key];
        obligations := obligations - {key};
        ghost var all := senders;
        while senders != []
          invariant db == old(db)[key := value] && obligations == old(obligations) - {key}
          invariant |senders| <= |all| && senders == all[|all| - |senders|..]
          invariant replies == old(replies) + Replies(key, all[..|all| - |senders|], value)
        {
          replies := replies + [Reply(key, senders[0], value)];
          assert all[..|all| - |senders| + 1] == all[..|all| - |senders|] + [senders[0]];
          senders := senders[1..];
        }
        assert all[..|all|] == all;
      } else {
        assert obligations - {key} == obligations;
      }
    }

    method Read(key: Key) returns (value: Option<Value>)
      ensures value == if key in db then Some(db[key]) else None
    {
      return if key in db then Some(db[key]) else None;
    }

    method NotifyRead(key: Key, reader: Reader)
      modifies this
      ensures State() == Execute(old(State()), Command.NotifyRead(key, reader))
    {
      if key !in db {
        var queue := if key in obligations then obligations[key] else [];
        obligations := obligations[key := queue + [reader]];
      } else {
        replies := replies + [Reply(key, reader, db[key])];
      }
    }
  }

  // No lost wake-up

  /** The readers that asked for a key, in their order. */
  function Asked(commands: seq<Command>, key: Key): seq<Reader> {
    if commands == [] then []
    else
      var rest, c := Asked(commands[..|commands| - 1], key), commands[|commands| - 1];
      if c.NotifyRead? && c.key == key then rest + [c.reader] else rest
  }

  /** The readers that were answered for a key, in their order. */
  function Answered(replies: seq<Reply>, key: Key): seq<Reader> {
    if replies == [] then []
    else
      var rest, r := Answered(replies[..|replies| - 1], key), replies[|replies| - 1];
      if r.key == key then rest + [r.reader] else rest
  }

  lemma AnsweredOneMore(replies: seq<Reply>, r: Reply, key: Key)
    ensures Answered(replies + [r], key) == Answered(replies, key) + if r.key == key then [r.reader] else []
  {
    assert (replies + [r])[..|replies|] == replies;
  }

  lemma {:induction false} AnsweredMany(replies: seq<Reply>, k: Key, readers: seq<Reader>, value: Value, key: Key)
    ensures Answered(replies + Replies(k, readers, value), key) ==
      Answered(replies, key) + if k == key then readers else []
  {
    if readers == [] {
      assert replies + Replies(k, readers, value) == replies;
    } else {
      var init, last := readers[..|readers| - 1], readers[|readers| - 1];
      AnsweredMany(replies, k, init, value, key);
      AnsweredOneMore(replies + Replies(k, init, value), Reply(k, last, value), key);
      assert replies + Replies(k, readers, value) == replies + Replies(k, init, value) + [Reply(k, last, value)];
      assert init + [last] == readers;
    }
  }

  /**
   After any commands: whoever asked for a written key was answered exactly once, in the order of
   asking, and whoever asked for another key is still owed an answer. No key is both stored and owed.
   */
  lemma {:induction false} NoLostWakeUp(commands: seq<Command>, key: Key)
    ensures var s := ExecuteAll(commands);
      if key in s.db then key !in s.obligations && Answered(s.replies, key) == Asked(commands, key)
      else Answered(s.replies, key) == []
           && Asked(commands, key) == if key in s.obligations then s.obligations[key] else []
  {
    if commands != [] {
      var init, c := commands[..|commands| - 1], commands[|commands| - 1];
      NoLostWakeUp(init, key);
      var s := ExecuteAll(init);
      assert s.replies + [] == s.replies && Answered(s.replies, key) + [] == Answered(s.replies, key);
      if c.Write? && c.key in s.obligations {
        AnsweredMany(s.replies, c.key, s.obligations[c.key], c.value, key);
      } else if c.NotifyRead? && c.key in s.db {
        AnsweredOneMore(s.replies, Reply(c.key, c.reader, s.db[c.key]), key);
      }
    }
  }

  /** Whether the reader's channel has been answered. */
  predicate HasReply(s: StoreState, key: Key, reader: Reader) {
    exists r :: r in s.replies && r.key == key && r.reader == reader
  }

  lemma {:induction false} AnsweredHas(replies: seq<Reply>, key: Key, reader: Reader)
    ensures reader in Answered(replies, key) <==> exists r :: r in replies && r.key == key && r.reader == reader
  {
    if replies != [] {
      var init, last := replies[..|replies| - 1], replies[|replies| - 1];
      AnsweredHas(init, key, reader);
      assert replies == init + [last];
    }
  }

  lemma {:induction false} AskedHas(commands: seq<Command>, key: Key, reader: Reader)
    ensures reader in Asked(commands, key) <==> NotifyRead(key, reader) in commands
  {
    if commands != [] {
      var init, last := commands[..|commands| - 1], commands[|commands| - 1];
      AskedHas(init, key, reader);
      assert commands == init + [last];
    }
  }

  /** A reader has its reply exactly if it asked and the key is stored, whichever came first. */
  lemma RepliedIffAskedAndStored(commands: seq<Command>, key: Key, reader: Reader)
    ensures HasReply(ExecuteAll(commands), key, reader) <==>
            NotifyRead(key, reader) in commands && key in ExecuteAll(commands).db
  {
    NoLostWakeUp(commands, key);
    AnsweredHas(ExecuteAll(commands).replies, key, reader);
    AskedHas(commands, key, reader);
  }

  predicate Writes(commands: seq<Command>, key: Key) {
    exists c :: c in commands && c.Write? && c.key == key
  }

  lemma {:induction false} StoredIsWritten(commands: seq<Command>, key: Key)
    ensures key in ExecuteAll(commands).db <==> Writes(commands, key)
  {
    if commands != [] {
      var init, last := commands[..|commands| - 1], commands[|commands| - 1];
      StoredIsWritten(init, key);
      assert commands == init + [last];
    }
  }

  /** More commands store exactly the keys that they write, and what was stored stays stored. */
  lemma StoredGrows(commands: seq<Command>, more: seq<Command>, key: Key)
    ensures key in ExecuteAll(commands + more).db <==> key in ExecuteAll(commands).db || Writes(more, key)
  {
    StoredIsWritten(commands, key);
    StoredIsWritten(commands + more, key);
  }

  // Values

  /** The value that was last written under the key. */
  function LastWritten(commands: seq<Command>, key: Key): Option<Value> {
    if commands == [] then None
    else
      var c := commands[|commands| - 1];
      if c.Write? && c.key == key then Some(c.value) else LastWritten(commands[..|commands| - 1], key)
  }

  /** The readers that asked for a key and have to wait for it. */
  function Owed(commands: seq<Command>, key: Key): seq<Reader> {
    if LastWritten(commands, key).Some? then [] else Asked(commands, key)
  }

  /** The database holds under every key the value that was last written. */
  lemma {:induction false} DatabaseHoldsLastWritten(commands: seq<Command>, key: Key)
    ensures var db := ExecuteAll(commands).db; LastWritten(commands, key) == if key in db then Some(db[key]) else None
  {
    if commands != [] {
      DatabaseHoldsLastWritten(commands[..|commands| - 1], key);
    }
  }

  lemma OwedAreObligations(commands: seq<Command>, key: Key)
    ensures Owed(commands, key) ==
      var s := ExecuteAll(commands); if key in s.obligations then s.obligations[key] else []
  {
    NoLostWakeUp(commands, key);
    DatabaseHoldsLastWritten(commands, key);
  }

  /** A value that is written goes to exactly the readers that wait for it, in their order. */
  lemma WriteAnswersOwed(commands: seq<Command>, key: Key, value: Value)
    ensures ExecuteAll(commands + [Command.Write(key, value)]).replies ==
      ExecuteAll(commands).replies + Replies(key, Owed(commands, key), value)
  {
    var c := Command.Write(key, value);
    assert (commands + [c])[..|commands|] == commands;
    OwedAreObligations(commands, key);
    assert Replies(key, [], value) == [];
  }

  lemma RepliesCarry(key: Key, readers: seq<Reader>, value: Value, i: nat)
    requires i < |readers|
    ensures |Replies(key, readers, value)| == |readers|
    ensures Replies(key, readers, value)[i] == Reply(key, readers[i], value)
  {
  }

  /** A reader that asks for a written key gets the value that was last written, at once. */
  lemma ReadIsAnswered(commands: seq<Command>, key: Key, reader: Reader)
    ensures ExecuteAll(commands + [Command.NotifyRead(key, reader)]).replies ==
      ExecuteAll(commands).replies +
      if LastWritten(commands, key).Some? then [Reply(key, reader, LastWritten(commands, key).value)] else []
  {
    var c := Command.NotifyRead(key, reader);
    assert (commands + [c])[..|commands|] == commands;
    DatabaseHoldsLastWritten(commands, key);
    assert ExecuteAll(commands).replies + [] == ExecuteAll(commands).replies;
  }
}
