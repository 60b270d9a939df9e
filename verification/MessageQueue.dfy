/** The outgoing queue over a backing array that Flush keeps and later pushes overwrite. */
module MessageQueues {
  import opened Protocol
  import opened WorkflowModel

  /** The counter behind `seq()`, shared by all queues. */
  class SeqCounter {
    var last: nat

    method Next() returns (id: Id)
      modifies this
      ensures id == last == WorkflowModel.Next(old(last))
    {
      last := WorkflowModel.Next(last);
      id := last;
    }
  }

  /** A Go slice: the array it points into, and its length. It sees later writes to that array. */
  datatype Slice = Slice(buf: array<Message>, len: nat)

  const BLANK: Message := Message(0, None, None, None, None)

  class MessageQueue {
    const seqId: SeqCounter
    var buf: array<Message>
    var len: nat

    ghost predicate Valid()
      reads this
    {
      len <= buf.Length
    }

    ghost function Contents(): (s: seq<Message>)
      requires Valid()
      reads this, buf
      ensures |s| == len
    {
      buf[..len]
    }

    constructor (seqId: SeqCounter)
      ensures Valid() && fresh(buf) && Contents() == [] && this.seqId == seqId
    {
      this.seqId := seqId;
      buf := new Message[5](_ => BLANK);
      len := 0;
    }

    /** Go's append: in place while there is room, into a new array otherwise. Either way the elements of the
        slice as it was are left alone. */
    method Append(m: Message)
      requires Valid()
      modifies this, buf
      ensures Valid() && Contents() == old(Contents()) + [m]
      ensures buf == old(buf) || fresh(buf)
      ensures old(buf)[..old(len)] == old(Contents())
      ensures old(len < buf.Length) ==> buf == old(buf) && buf[..] == old(buf[..])[old(len) := m]
    {
      if len == buf.Length {
        var grown := new Message[2 * len + 1](_ => BLANK);
        for i := 0 to len
          invariant unchanged(this) && unchanged(buf)
          invariant grown[..i] == buf[..i]
        {
          grown[i] := buf[i];
        }
        buf := grown;
      }
      buf[len] := m;
      len := len + 1;
    }

    method PushCommand(command: Command, payloads: Payloads, header: Header)
      requires Valid()
      modifies this, buf, seqId
      ensures Valid() && (buf == old(buf) || fresh(buf)) && old(buf)[..old(len)] == old(Contents())
      ensures seqId.last == WorkflowModel.Next(old(seqId.last))
      ensures Contents() == old(Contents()) + [Message(seqId.last, Some(command), None, payloads, header)]
    {
      var id := seqId.Next();
      Append(Message(id, Some(command), None, payloads, header));
    }

    method PushResponse(id: Id, payloads: Payloads)
      requires Valid()
      modifies this, buf
      ensures Valid() && (buf == old(buf) || fresh(buf)) && old(buf)[..old(len)] == old(Contents())
      ensures Contents() == old(Contents()) + [Message(id, None, None, payloads, None)]
    {
      Append(Message(id, None, None, payloads, None));
    }

    method PushError(id: Id, failure: string)
      requires Valid()
      modifies this, buf
      ensures Valid() && (buf == old(buf) || fresh(buf)) && old(buf)[..old(len)] == old(Contents())
      ensures Contents() == old(Contents()) + [Message(id, None, Some(failure), None, None)]
    {
      Append(Message(id, None, Some(failure), None, None));
    }

    method AllocateMessage(command: Command, payloads: Payloads, header: Header) returns (m: Message)
      modifies seqId
      ensures m == Message(WorkflowModel.Next(old(seqId.last)), Some(command), None, payloads, header)
      ensures seqId.last == m.id
    {
      var id := seqId.Next();
      m := Message(id, Some(command), None, payloads, header);
    }

    /** The slice is truncated; its array and what is in it stay. */
    method Flush()
      requires Valid()
      modifies this`len
      ensures Valid() && Contents() == []
    {
      len := 0;
    }

    method Messages() returns (s: Slice)
      requires Valid()
      ensures s.buf == buf && s.len == len && s.buf[..s.len] == Contents()
    {
      s := Slice(buf, len);
    }
  }

  datatype Pushing =
    | CommandPush(command: Command, payloads: Payloads, header: Header)
    | ResponsePush(id: Id, payloads: Payloads)
    | ErrorPush(id: Id, failure: string)

  /** What a sequence of pushes adds to the queue, and where it leaves the counter. */
  function Pushed(last: nat, ps: seq<Pushing>): (seq<Message>, nat)
  {
    if ps == [] then ([], last)
    else
      var (ms, counter) := Pushed(last, ps[..|ps| - 1]);
      match ps[|ps| - 1]
      case CommandPush(command, payloads, header) =>
        var id := WorkflowModel.Next(counter);
        (ms + [Message(id, Some(command), None, payloads, header)], id)
      case ResponsePush(id, payloads) => (ms + [Message(id, None, None, payloads, None)], counter)
      case ErrorPush(id, failure) => (ms + [Message(id, None, Some(failure), None, None)], counter)
  }

  /** A snapshot taken with Messages keeps its contents through any sequence of pushes... */
  method SnapshotSurvivesPushes(q: MessageQueue, ps: seq<Pushing>) returns (s: Slice)
    requires q.Valid()
    modifies q, q.buf, q.seqId
    ensures q.Valid() && s.len <= s.buf.Length && s.buf[..s.len] == old(q.Contents())
    ensures q.Contents() == old(q.Contents()) + Pushed(old(q.seqId.last), ps).0
    ensures q.seqId.last == Pushed(old(q.seqId.last), ps).1
  {
    s := q.Messages();
    for i := 0 to |ps|
      invariant q.Valid() && (q.buf == s.buf || fresh(q.buf)) && s.len <= s.buf.Length && s.len <= q.len
      invariant s.buf == old(q.buf) && s.buf[..s.len] == old(q.Contents())
      invariant q.seqId.last == Pushed(old(q.seqId.last), ps[..i]).1
      invariant q.Contents() == old(q.Contents()) + Pushed(old(q.seqId.last), ps[..i]).0
    {
      assert ps[..i + 1][..i] == ps[..i];
      match ps[i] {
        case CommandPush(command, payloads, header) => q.PushCommand(command, payloads, header);
        case ResponsePush(id, payloads) => q.PushResponse(id, payloads);
        case ErrorPush(id, failure) => q.PushError(id, failure);
      }
    }
    assert ps[..|ps|] == ps;
  }

  /** ...but not through a Flush and the push after it, which writes into the array the snapshot points to.
      What is sent to the worker has to be encoded before the queue is flushed. */
  method FlushedSnapshotIsOverwritten(q: MessageQueue, m: Message) returns (s: Slice)
    requires q.Valid() && |q.Contents()| > 0
    modifies q, q.buf
    ensures q.Valid() && q.Contents() == [m]
    ensures 0 < s.len <= s.buf.Length && s.buf[0] == m && s.buf[1..s.len] == old(q.Contents())[1..]
  {
    s := q.Messages();
    q.Flush();
    q.Append(m);
    assert s.buf[1..s.len] == s.buf[..][1..s.len];
  }
}
