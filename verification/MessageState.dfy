/** The terminal state of assistant messages as the code writes it: one row under its lock, and the scan
    that ends the streams nobody serves any more. */
module MessageState {
  import opened Rows
  import opened AnswerStream

  datatype MessageRow = MessageRow(user: nat, assistant: bool, created: int, message: Message)

  predicate IsStale(row: MessageRow, now: int, seconds: nat) {
    row.assistant && row.message.status.Streaming? && row.created < now - seconds
  }

  class MessageTerminalState {
    var rows: map<nat, MessageRow>

    constructor (rows: map<nat, MessageRow>)
      ensures this.rows == rows
    {
      this.rows := rows;
    }

    /** Ends the message of this user if it is still STREAMING; otherwise nothing is overwritten. */
    method SetTerminal(id: nat, user: nat, status: MessageStatus, reason: FinishReason, content: Option<string>)
      returns (ended: bool)
      modifies this
      ensures ended <==> id in old(rows) && old(rows)[id].user == user && old(rows)[id].message.status.Streaming?
      ensures rows == if ended
                      then old(rows)[id := old(rows)[id].(
                             message := Message(status, Some(reason),
                                                if content.Some? then content.value else old(rows)[id].message.content))]
                      else old(rows)
    {
      if id !in rows || rows[id].user != user || !rows[id].message.status.Streaming? {
        return false;
      }
      var message := rows[id].message;
      message := message.(status := status);
      message := message.(reason := Some(reason));
      if content.Some? {
        message := message.(content := content.value);
      }
      rows := rows[id := rows[id].(message := message)];
      ended := true;
    }

    method Fail(id: nat, user: nat) returns (ended: bool)
      modifies this
      ensures ended <==> id in old(rows) && old(rows)[id].user == user && old(rows)[id].message.status.Streaming?
      ensures rows == if ended
                      then old(rows)[id := old(rows)[id].(
                             message := Message(FailedAnswer, Some(Error), old(rows)[id].message.content))]
                      else old(rows)
    {
      ended := SetTerminal(id, user, FailedAnswer, Error, None);
    }

    method Cancel(id: nat, user: nat) returns (ended: bool)
      modifies this
      ensures ended <==> id in old(rows) && old(rows)[id].user == user && old(rows)[id].message.status.Streaming?
      ensures rows == if ended
                      then old(rows)[id := old(rows)[id].(
                             message := Message(CancelledAnswer, Some(CancelledReason), old(rows)[id].message.content))]
                      else old(rows)
    {
      ended := SetTerminal(id, user, CancelledAnswer, CancelledReason, None);
    }

    method Complete(id: nat, user: nat, content: string, reason: FinishReason) returns (ended: bool)
      modifies this
      ensures ended <==> id in old(rows) && old(rows)[id].user == user && old(rows)[id].message.status.Streaming?
      ensures rows == if ended
                      then old(rows)[id := old(rows)[id].(
                             message := Message(CompletedAnswer, Some(reason), content))]
                      else old(rows)
    {
      ended := SetTerminal(id, user, CompletedAnswer, reason, Some(content));
    }

    /** One scan: exactly the assistant messages still STREAMING that were created more than `seconds` ago are failed,
        each counted once. */
    method ConvergeStale(now: int, seconds: nat) returns (converged: nat)
      modifies this
      ensures rows.Keys == old(rows).Keys
      ensures forall id :: id in rows ==>
                var row := old(rows)[id];
                rows[id] == if row.assistant && row.message.status == Streaming && row.created < now - seconds
                            then row.(message := Message(FailedAnswer, Some(Error), row.message.content)) else row
      ensures converged == |set id | id in old(rows) && old(rows)[id].assistant
                                     && old(rows)[id].message.status == Streaming && old(rows)[id].created < now - seconds|
    {
      var before := rows;
      var listed := set id | id in rows && IsStale(rows[id], now, seconds);
      assert listed == set id | id in rows && rows[id].assistant && rows[id].message.status == Streaming
                                && rows[id].created < now - seconds;
      ghost var all := listed;
      converged := 0;
      while listed != {}
        invariant listed <= all && converged + |listed| == |all|
        invariant rows.Keys == before.Keys
        invariant forall id :: id in rows ==>
                    rows[id] == if id in all - listed
                                then before[id].(message := Message(FailedAnswer, Some(Error), before[id].message.content))
                                else before[id]
        decreases |listed|
      {
        var id :| id in listed;
        var ended := Fail(id, rows[id].user);
        if ended {
          converged := converged + 1;
        }
        listed := listed - {id};
      }
    }
  }
}
