// The streaming receiver: each message is verified, persisted or rejected on disk,
// and only then acknowledged, while other callbacks work on the same directories.

module StreamingReceive {
  import opened Common

  datatype Envelope = Envelope(order: Binding, keyId: string, body: string)

  // What verification says about a decoded envelope.
  datatype Check = Verified | KeyIdMismatch | Invalid

  datatype Status =
    | InvalidAcknowledged | RejectionNotPersisted | LocalKeyUnavailable | KeyIdMismatchNacked
    | PersistenceFailed | DuplicateAcknowledged | ReceivedAcknowledged

  // The rejection file is named by a hash of the message id, or of the data when
  // the id is empty; hashes are injective.
  function MessageKey(id: string, data: string): string {
    if id != "" then id else data
  }

  // What goes wrong on the disk while one message is processed: an existing file cannot
  // be read, or a new one cannot be written.
  datatype Faults = Faults(unreadable: bool, unwritable: bool) {
    predicate None() {
      !unreadable && !unwritable
    }
  }

  class StreamingMessage {
    const id: string
    const data: string
    // what decoding the data and comparing the attributes yields
    const decoded: Option<Envelope>
    var acks: nat
    var nacks: nat

    ghost predicate Unanswered()
      reads this
    {
      acks == 0 && nacks == 0
    }

    constructor (id: string, data: string, decoded: Option<Envelope>)
      ensures this.id == id && this.data == data && this.decoded == decoded && Unanswered()
    {
      this.id, this.data, this.decoded, acks, nacks := id, data, decoded, 0, 0;
    }

    method Ack()
      modifies this
      ensures acks == old(acks) + 1 && nacks == old(nacks)
    {
      acks := acks + 1;
    }

    method Nack()
      modifies this
      ensures nacks == old(nacks) + 1 && acks == old(acks)
    {
      nacks := nacks + 1;
    }
  }

  // Does the disk account for an acknowledged message? Its rejection is on file with
  // the same data, or its very envelope is in the inbox under its order.
  ghost predicate OnDisk(m: StreamingMessage, inbox: map<Binding, Envelope>, rejections: map<string, string>) {
    Rejected(m, rejections) || (m.decoded.Some? && InInbox(m.decoded.value, inbox))
  }

  ghost predicate Rejected(m: StreamingMessage, rejections: map<string, string>) {
    MessageKey(m.id, m.data) in rejections && rejections[MessageKey(m.id, m.data)] == m.data
  }

  ghost predicate InInbox(e: Envelope, inbox: map<Binding, Envelope>) {
    e.order in inbox && inbox[e.order] == e
  }

  // Messages that are rejected for good: undecodable, or invalid under the local key.
  ghost predicate Refused(m: StreamingMessage, keyAvailable: bool, check: Check) {
    m.decoded.None? || (keyAvailable && check.Invalid?)
  }

  class Receiver {
    var inbox: map<Binding, Envelope>    // inbox directory, one file per exact order
    var rejections: map<string, string>  // rejection directory: the data each receipt is for

    // Other callbacks may create files between any two accesses of this one.
    method OthersRun()
      modifies this
      ensures Extends(old(inbox), inbox) && Extends(old(rejections), rejections)
    {
      var envelopes: map<Binding, Envelope>, receipts: map<string, string> := *, *;
      inbox := envelopes + inbox;
      rejections := receipts + rejections;
    }

    // _write_rejection; false stands for any OSError or TransportError. Without faults
    // only a receipt for other data, or one filed meanwhile by another callback, is in the way.
    method WriteRejection(m: StreamingMessage, faults: Faults) returns (persisted: bool)
      modifies this
      ensures Extends(old(inbox), inbox) && Extends(old(rejections), rejections)
      ensures persisted ==> Rejected(m, rejections)
      ensures MessageKey(m.id, m.data) in old(rejections) && !Rejected(m, old(rejections)) ==> !persisted
      ensures faults.None() ==> MessageKey(m.id, m.data) in rejections
      ensures faults.None() && Rejected(m, old(rejections)) ==> persisted
    {
      var key := MessageKey(m.id, m.data);
      if key in rejections {
        return !faults.unreadable && rejections[key] == m.data;
      }
      OthersRun();
      if key in rejections || faults.unwritable { return false; }
      rejections := rejections[key := m.data];
      return true;
    }

    // _persist_verified_envelope: the first envelope of an order wins, also against a
    // writer that gets in between the check and the exclusive create. Without faults the
    // outcome is just whether the envelope that won is this one.
    method PersistVerifiedEnvelope(e: Envelope, faults: Faults) returns (duplicate: Option<bool>)
      modifies this
      ensures Extends(old(inbox), inbox) && Extends(old(rejections), rejections)
      ensures duplicate.Some? ==> InInbox(e, inbox)
      ensures faults.None() ==> e.order in inbox && (duplicate.Some? <==> InInbox(e, inbox))
      ensures duplicate == Some(false) ==> e.order !in old(inbox)
      ensures faults.None() && InInbox(e, old(inbox)) ==> duplicate == Some(true)
    {
      if e.order in inbox {
        return if !faults.unreadable && inbox[e.order] == e then Some(true) else None;
      }
      OthersRun();
      if e.order in inbox {
        return if !faults.unreadable && inbox[e.order] == e then Some(true) else None;
      }
      if faults.unwritable { return None; }
      inbox := inbox[e.order := e];
      return Some(false);
    }

    // process_message: exactly one ack or nack, an ack only for what is on disk, and
    // without faults an ack for every envelope that is the one on file.
    method ProcessMessage(m: StreamingMessage, keyAvailable: bool, check: Check, faults: Faults)
      returns (status: Status)
      requires m.Unanswered()
      modifies this, m
      ensures m.acks + m.nacks == 1
      ensures m.acks == 1 <==> status.InvalidAcknowledged? || Persisted(status)
      ensures m.acks == 1 ==> OnDisk(m, inbox, rejections)
      ensures Persisted(status) ==> m.decoded.Some? && InInbox(m.decoded.value, inbox)
      ensures status.InvalidAcknowledged? <==> m.acks == 1 && Refused(m, keyAvailable, check)
      ensures m.decoded.Some? && (!keyAvailable || check.KeyIdMismatch?) ==>
                m.nacks == 1 && inbox == old(inbox) && rejections == old(rejections)
      ensures faults.None() ==> Answered(m, keyAvailable, check, inbox)
      // without faults a nacked rejection left some receipt under the message's key
      ensures faults.None() && Refused(m, keyAvailable, check) ==>
                MessageKey(m.id, m.data) in rejections && (Rejected(m, old(rejections)) ==> m.acks == 1)
      ensures Extends(old(inbox), inbox) && Extends(old(rejections), rejections)
    {
      if m.decoded.None? {
        status := Reject(m, faults);
        return;
      }
      if !keyAvailable {
        m.Nack();
        return LocalKeyUnavailable;
      }
      match check
      case KeyIdMismatch =>
        m.Nack();
        status := KeyIdMismatchNacked;
      case Invalid =>
        status := Reject(m, faults);
      case Verified =>
        var duplicate := PersistVerifiedEnvelope(m.decoded.value, faults);
        if duplicate.None? {
          m.Nack();
          return PersistenceFailed;
        }
        m.Ack();
        status := if duplicate.value then DuplicateAcknowledged else ReceivedAcknowledged;
    }

    // Persist the rejection first, acknowledge second.
    method Reject(m: StreamingMessage, faults: Faults) returns (status: Status)
      requires m.Unanswered()
      modifies this, m
      ensures m.acks + m.nacks == 1
      ensures status == if m.acks == 1 then InvalidAcknowledged else RejectionNotPersisted
      ensures m.acks == 1 ==> Rejected(m, rejections)
      ensures faults.None() ==> MessageKey(m.id, m.data) in rejections
      ensures faults.None() && Rejected(m, old(rejections)) ==> m.acks == 1
      ensures Extends(old(inbox), inbox) && Extends(old(rejections), rejections)
    {
      var persisted := WriteRejection(m, faults);
      if persisted {
        m.Ack();
        return InvalidAcknowledged;
      }
      m.Nack();
      return RejectionNotPersisted;
    }

    // Any number of messages, with others interfering between them.
    method ProcessAll(messages: seq<StreamingMessage>, keys: seq<bool>, checks: seq<Check>, faults: seq<Faults>)
      returns (statuses: seq<Status>)
      requires |keys| == |checks| == |faults| == |messages|
      requires forall i :: 0 <= i < |messages| ==> messages[i].Unanswered()
      requires forall i, j :: 0 <= i < j < |messages| ==> messages[i] != messages[j]
      modifies this, set i | 0 <= i < |messages| :: messages[i]
      ensures |statuses| == |messages|
      ensures forall i :: 0 <= i < |messages| ==> messages[i].acks + messages[i].nacks == 1
      ensures forall i :: 0 <= i < |messages| && messages[i].acks == 1 ==> OnDisk(messages[i], inbox, rejections)
      ensures forall i :: 0 <= i < |messages| ==> Accounted(messages[i], statuses[i], inbox)
      ensures forall i :: 0 <= i < |messages| && faults[i].None() ==> Answered(messages[i], keys[i], checks[i], inbox)
      // everything acknowledged as persisted for one order is one and the same envelope
      ensures forall i, j :: 0 <= i < j < |messages| && Persisted(statuses[i]) && Persisted(statuses[j])
                             && messages[i].decoded.Some? && messages[j].decoded.Some?
                             && messages[i].decoded.value.order == messages[j].decoded.value.order
                             ==> messages[i].decoded == messages[j].decoded
      ensures Extends(old(inbox), inbox) && Extends(old(rejections), rejections)
    {
      statuses := [];
      for i := 0 to |messages|
        invariant |statuses| == i
        invariant forall k :: i <= k < |messages| ==> messages[k].Unanswered()
        invariant forall k :: 0 <= k < i ==> messages[k].acks + messages[k].nacks == 1
        invariant forall k :: 0 <= k < i && messages[k].acks == 1 ==> OnDisk(messages[k], inbox, rejections)
        invariant forall k :: 0 <= k < i ==> Accounted(messages[k], statuses[k], inbox)
        invariant forall k :: 0 <= k < i && faults[k].None() ==> Answered(messages[k], keys[k], checks[k], inbox)
        invariant Extends(old(inbox), inbox) && Extends(old(rejections), rejections)
      {
        OthersRun();
        var status := ProcessMessage(messages[i], keys[i], checks[i], faults[i]);
        statuses := statuses + [status];
      }
    }
  }

  predicate Persisted(status: Status) {
    status.ReceivedAcknowledged? || status.DuplicateAcknowledged?
  }

  ghost predicate Accounted(m: StreamingMessage, status: Status, inbox: map<Binding, Envelope>) {
    Persisted(status) ==> m.decoded.Some? && InInbox(m.decoded.value, inbox)
  }

  // A message with a verified envelope is acknowledged exactly when that envelope is the
  // one on file for its order.
  ghost predicate Answered(m: StreamingMessage, keyAvailable: bool, check: Check, inbox: map<Binding, Envelope>)
    reads m
  {
    m.decoded.Some? && keyAvailable && check.Verified? ==>
      && m.decoded.value.order in inbox
      && (m.acks == 1 <==> InInbox(m.decoded.value, inbox))
  }
}
