/**
 * The Unity-side listener registrations and what a fan-out sends: one
 * message per registration, in registration order, each carrying the same
 * payload.
 */
module Registry {
  import opened Packets

  /** A registration from the Unity side: the receiving object and the method to call on it. */
  datatype Listener = Listener(obj: string, methodName: string)

  /**
   * What is sent to Unity. The device list is the plain joined string; the
   * three JSON objects are kept as records of their fields.
   */
  datatype Payload =
    | MuseList(names: string)
    | ConnectionStatus(previousConnectionState: nat, currentConnectionState: nat)
    | DataRecord(dataPacketType: string, dataPacketValue: seq<Value>, timeStamp: int)
    | ArtifactRecord(headbandOn: string, blink: string, jawClench: string)

  /** One call of the Unity sink: object, method and payload. */
  datatype Message = Message(obj: string, methodName: string, payload: Payload)

  /** The messages of one fan-out of `payload` over `listeners`, in list order. */
  function Deliveries(listeners: seq<Listener>, payload: Payload): seq<Message>
  {
    if listeners == [] then []
    else
      var last := listeners[|listeners| - 1];
      Deliveries(listeners[..|listeners| - 1], payload) + [Message(last.obj, last.methodName, payload)]
  }

  /**
   * A fan-out sends exactly one message per registration: the i-th goes to
   * the i-th listener's object and method and carries the payload unchanged.
   */
  lemma {:induction false} DeliveriesAt(listeners: seq<Listener>, payload: Payload)
    ensures |Deliveries(listeners, payload)| == |listeners|
    ensures forall i :: 0 <= i < |listeners| ==>
      Deliveries(listeners, payload)[i] == Message(listeners[i].obj, listeners[i].methodName, payload)
  {
    if listeners != [] {
      var init := listeners[..|listeners| - 1];
      DeliveriesAt(init, payload);
      forall i | 0 <= i < |listeners|
        ensures Deliveries(listeners, payload)[i] == Message(listeners[i].obj, listeners[i].methodName, payload)
      {
        if i < |init| { assert init[i] == listeners[i]; }
      }
    }
  }

  /** Registering a listener twice makes it receive every fan-out twice: there is no deduplication. */
  lemma DuplicateRegistrationDeliversTwice(listeners: seq<Listener>, l: Listener, payload: Payload)
    ensures Deliveries(listeners + [l, l], payload)
      == Deliveries(listeners, payload) + [Message(l.obj, l.methodName, payload), Message(l.obj, l.methodName, payload)]
  {
    assert (listeners + [l, l])[..|listeners| + 1] == listeners + [l];
    assert (listeners + [l])[..|listeners|] == listeners;
  }

  /** The fan-out over a concatenation of registrations is the fan-out over each part, in order. */
  lemma {:induction false} DeliveriesAppend(a: seq<Listener>, b: seq<Listener>, payload: Payload)
    ensures Deliveries(a + b, payload) == Deliveries(a, payload) + Deliveries(b, payload)
    decreases |b|
  {
    if b == [] {
      assert a + b == a;
    } else {
      var binit := b[..|b| - 1];
      assert (a + b)[..|a + b| - 1] == a + binit;
      DeliveriesAppend(a, binit, payload);
    }
  }
}
