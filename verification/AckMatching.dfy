/** How the MQTT adapter matches acks to the Send that waits for them. */
module AckMatching {
  import opened Ints
  import opened Wire

  /** `pending` maps a message's to_seq to its one-slot ack channel, `stream` to the stream
      the message belongs to. */
  datatype Waiters = Waiters(pending: map<int, Option<Ack>>, stream: map<int, string>)

  const NO_WAITERS := Waiters(map[], map[])

  function Register(w: Waiters, m: Message): Waiters {
    Waiters(w.pending[m.toSeq := None], w.stream[m.toSeq := m.streamId])
  }

  function Unregister(w: Waiters, m: Message): Waiters {
    Waiters(w.pending - {m.toSeq}, w.stream - {m.toSeq})
  }

  /** Whether an ack is let through to the waiting Send. An ack without a stream id is. */
  predicate Matches(w: Waiters, ack: Ack) {
    && ack.toSeq in w.pending
    && (ack.streamId == "" || ack.streamId == (if ack.toSeq in w.stream then w.stream[ack.toSeq] else ""))
  }

  function HandleAck(w: Waiters, ack: Ack): Waiters {
    if Matches(w, ack) && w.pending[ack.toSeq].None?
    then w.(pending := w.pending[ack.toSeq := Some(ack)])
    else w
  }

  /** The two maps always name the same messages, and a waiting ack is for its own slot. */
  ghost predicate WellFormed(w: Waiters) {
    && w.pending.Keys == w.stream.Keys
    && forall q <- w.pending :: w.pending[q].Some? ==>
         w.pending[q].value.toSeq == q && w.pending[q].value.streamId in {"", w.stream[q]}
  }

  class MqttAdapter {
    var pending: map<int, Option<Ack>>
    var pendingStream: map<int, string>

    ghost function View(): Waiters
      reads this
    {
      Waiters(pending, pendingStream)
    }

    constructor ()
      ensures View() == NO_WAITERS
    {
      pending, pendingStream := map[], map[];
    }

    /** The part of Send before the publish. */
    method Await(m: Message)
      requires WellFormed(View())
      modifies this
      ensures View() == Register(old(View()), m) && WellFormed(View())
    {
      pending := pending[m.toSeq := None];
      pendingStream := pendingStream[m.toSeq := m.streamId];
    }

    /** handleAck: a duplicate finds the slot taken and is dropped. */
    method OnAck(ack: Ack)
      requires WellFormed(View())
      modifies this
      ensures View() == HandleAck(old(View()), ack) && WellFormed(View())
    {
      if ack.toSeq !in pending {
        return;
      }
      var stream := if ack.toSeq in pendingStream then pendingStream[ack.toSeq] else "";
      if ack.streamId != "" && ack.streamId != stream {
        return;
      }
      if pending[ack.toSeq].None? {
        pending := pending[ack.toSeq := Some(ack)];
      }
    }

    /** The part of Send after the publish: `cancelled` covers the timeout, a cancelled
        context and a failed publish. The deferred clean-up always runs. */
    method Collect(m: Message, cancelled: bool) returns (acknowledged: bool)
      requires WellFormed(View()) && m.toSeq in pending && pendingStream[m.toSeq] == m.streamId
      modifies this
      ensures View() == Unregister(old(View()), m) && WellFormed(View())
      ensures acknowledged <==> !cancelled && old(pending)[m.toSeq].Some? && old(pending)[m.toSeq].value.error == ""
      ensures acknowledged ==> old(pending)[m.toSeq].value.toSeq == m.toSeq
                               && old(pending)[m.toSeq].value.streamId in {"", m.streamId}
    {
      acknowledged := !cancelled && pending[m.toSeq].Some? && pending[m.toSeq].value.error == "";
      pending := pending - {m.toSeq};
      pendingStream := pendingStream - {m.toSeq};
    }

    /** Send over a whole wait: `arriving` are the acks handled while it lasts, in order. A message
        without a JSON form is given up before it is published. */
    method Send(m: Message, connected: bool, arriving: seq<Ack>, cancelled: bool) returns (acknowledged: bool)
      requires WellFormed(View())
      modifies this
      ensures WellFormed(View())
      ensures !connected || !HasJson(m) ==> View() == old(View()) && !acknowledged
      ensures connected && HasJson(m) ==> pending.Keys == old(pending).Keys - {m.toSeq}
      ensures acknowledged <==>
                connected && HasJson(m) && !cancelled && Answer(m, arriving).Some? && Answer(m, arriving).value.error == ""
    {
      if !connected {
        return false;
      }
      if !HasJson(m) {
        return false;
      }
      Await(m);
      for i := 0 to |arriving|
        invariant WellFormed(View()) && pending.Keys == old(pending).Keys + {m.toSeq}
        invariant m.toSeq in pendingStream && pendingStream[m.toSeq] == m.streamId
        invariant pending[m.toSeq] == Answer(m, arriving[..i])
      {
        AnswerStep(m, arriving, i);
        OnAck(arriving[i]);
      }
      assert arriving[..|arriving|] == arriving;
      acknowledged := Collect(m, cancelled);
    }
  }

  /** The first ack that is let through to a waiting message: later ones find the slot taken. */
  function Answer(m: Message, acks: seq<Ack>): Option<Ack> {
    if acks == [] then None
    else
      var before, a := Answer(m, acks[..|acks| - 1]), acks[|acks| - 1];
      if before.Some? then before
      else if a.toSeq == m.toSeq && a.streamId in {"", m.streamId} then Some(a)
      else None
  }

  lemma AnswerStep(m: Message, acks: seq<Ack>, i: nat)
    requires i < |acks|
    ensures Answer(m, acks[..i + 1]) ==
            if Answer(m, acks[..i]).Some? then Answer(m, acks[..i])
            else if acks[i].toSeq == m.toSeq && acks[i].streamId in {"", m.streamId} then Some(acks[i])
            else None
  {
    assert acks[..i + 1][..i] == acks[..i];
  }

  /** An ack that handleAck lets through to a Send waiting for to_seq q of a stream. */
  predicate ForWait(a: Ack, stream: string, q: int) {
    a.toSeq == q && (a.streamId == stream || a.streamId == "")
  }

  /** The answer is the first ack of the wait that is let through. */
  lemma {:induction false} AnswerIsFirst(m: Message, acks: seq<Ack>)
    ensures Answer(m, acks).None? <==> forall i :: 0 <= i < |acks| ==> !ForWait(acks[i], m.streamId, m.toSeq)
    ensures Answer(m, acks).Some? ==>
              exists i :: 0 <= i < |acks| && ForWait(acks[i], m.streamId, m.toSeq) && acks[i] == Answer(m, acks).value
                          && forall j :: 0 <= j < i ==> !ForWait(acks[j], m.streamId, m.toSeq)
  {
    if acks != [] {
      var n := |acks| - 1;
      AnswerIsFirst(m, acks[..n]);
      if Answer(m, acks[..n]).Some? {
        var i :| 0 <= i < n && ForWait(acks[..n][i], m.streamId, m.toSeq) && acks[..n][i] == Answer(m, acks[..n]).value
                 && forall j :: 0 <= j < i ==> !ForWait(acks[..n][j], m.streamId, m.toSeq);
        assert forall j :: 0 <= j < i ==> acks[..n][j] == acks[j];
        assert acks[i] == acks[..n][i];
      } else {
        assert forall j :: 0 <= j < n ==> acks[..n][j] == acks[j];
      }
    }
  }
}
