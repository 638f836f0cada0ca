/**
 * The bridge object between the Muse SDK and Unity. It keeps the Unity
 * listener registrations, the headband catalog, the packet-type codec and
 * the list of packet types to subscribe to, and it turns SDK callbacks into
 * messages for every registered Unity listener.
 *
 * The SDK and the Unity sink are outside the model: what the bridge asks of
 * the SDK is recorded in the ghost trace `SdkCalls`, every message sent to
 * Unity in the ghost log `Sent`, and every error it logs in `Errors`.
 */
module Bridge {
  import opened Wrappers
  import opened PacketTypes
  import opened Packets
  import opened Catalog
  import opened Registry

  /** The calls the bridge makes into the SDK, in the order it makes them. */
  datatype SdkCall =
    | ManagerStopListening
    | ManagerStartListening
    | MuseUnregisterAllListeners(muse: Muse)
    | MuseRegisterConnectionListener(muse: Muse)
    | MuseRegisterDataListener(muse: Muse, packetType: PacketType)
    | MuseRunAsynchronously(muse: Muse)
    | MuseDisconnect(muse: Muse)

  /** The errors the bridge logs instead of acting. */
  datatype LoggedError =
    | NoMuseListener
    | MuseNotFound(headband: string)
    | InvalidPacketType(packetType: string)

  /** One data-listener registration per requested type, in list order. */
  function DataRegistrations(m: Muse, types: seq<PacketType>): seq<SdkCall>
  {
    if types == [] then []
    else DataRegistrations(m, types[..|types| - 1]) + [MuseRegisterDataListener(m, types[|types| - 1])]
  }

  /** What `connect` asks of the SDK once the headband is found. */
  function ConnectCalls(m: Muse, types: seq<PacketType>): seq<SdkCall>
  {
    [ManagerStopListening, MuseUnregisterAllListeners(m), MuseRegisterConnectionListener(m)]
      + DataRegistrations(m, types)
      + [MuseRunAsynchronously(m)]
  }

  /**
   * `connect` registers the data listener once per element of the requested
   * types, in order and with duplicates, between the connection listener
   * and the start of the run loop.
   */
  lemma {:induction false} ConnectRegistersEachType(m: Muse, types: seq<PacketType>)
    ensures |DataRegistrations(m, types)| == |types|
    ensures forall i :: 0 <= i < |types| ==> DataRegistrations(m, types)[i] == MuseRegisterDataListener(m, types[i])
    ensures |ConnectCalls(m, types)| == |types| + 4
    ensures forall i :: 0 <= i < |types| ==> ConnectCalls(m, types)[i + 3] == MuseRegisterDataListener(m, types[i])
  {
    if types != [] {
      var init := types[..|types| - 1];
      ConnectRegistersEachType(m, init);
      forall i | 0 <= i < |types| ensures DataRegistrations(m, types)[i] == MuseRegisterDataListener(m, types[i]) {
        if i < |init| { assert init[i] == types[i]; }
      }
    }
  }

  /** Java's String.valueOf for a boolean. */
  function BoolString(b: bool): string
  {
    if b then "true" else "false"
  }

  class LibmuseUnityProjectAndroid {
    /** The Unity listeners, one list per event kind. */
    var unityMuseListener: seq<Listener>
    var unityConnectionListener: seq<Listener>
    var unityDataListener: seq<Listener>
    var unityArtifactListener: seq<Listener>

    /** Headband name -> headband, for every headband ever listed. */
    var museHashMap: map<string, Muse>

    /** The packet types to subscribe to when connecting. */
    var dataTypeToListen: seq<PacketType>

    /** The codec: name -> packet type, and its reverse. */
    var stringToDataPacketType: map<string, PacketType>
    var dataPacketTypeToString: map<PacketType, string>

    /** The headband chosen by the last successful `connect`. */
    var muse: Option<Muse>

    ghost var Sent: seq<Message>
    ghost var SdkCalls: seq<SdkCall>
    ghost var Errors: seq<LoggedError>

    /** The codec holds the 23 names and their exact reverse. */
    ghost predicate Valid()
      reads this`stringToDataPacketType, this`dataPacketTypeToString
    {
      && stringToDataPacketType == NameMap()
      && IsInverse(stringToDataPacketType, dataPacketTypeToString)
      && (forall t: PacketType :: t in dataPacketTypeToString)
    }

    /** The bridge starts with no listener, no headband, no requested type and a full codec. */
    constructor ()
      ensures Valid()
      ensures unityMuseListener == [] && unityConnectionListener == []
      ensures unityDataListener == [] && unityArtifactListener == []
      ensures museHashMap == map[] && dataTypeToListen == [] && muse == None
      ensures Sent == [] && SdkCalls == [] && Errors == []
    {
      unityDataListener := [];
      unityArtifactListener := [];
      unityConnectionListener := [];
      unityMuseListener := [];
      museHashMap := map[];
      dataTypeToListen := [];
      stringToDataPacketType := map[];
      dataPacketTypeToString := map[];
      muse := None;
      Sent, SdkCalls, Errors := [], [], [];
      new;
      InitMaps();
    }

    /** Fills the name map from the table, then the reverse map by visiting the names in any order. */
    method InitMaps()
      requires stringToDataPacketType == map[] && dataPacketTypeToString == map[]
      modifies this`stringToDataPacketType, this`dataPacketTypeToString
      ensures Valid()
    {
      for i := 0 to |Table|
        invariant stringToDataPacketType == PutPairs(Table[..i])
        invariant dataPacketTypeToString == map[]
      {
        assert Table[..i + 1][..i] == Table[..i];
        stringToDataPacketType := stringToDataPacketType[Table[i].0 := Table[i].1];
      }
      assert Table[..|Table|] == Table;
      NameMapInjective();
      var keys := stringToDataPacketType.Keys;
      assert (set s | s in stringToDataPacketType && s !in keys :: stringToDataPacketType[s]) == {};
      while keys != {}
        invariant stringToDataPacketType == NameMap()
        invariant keys <= stringToDataPacketType.Keys
        invariant dataPacketTypeToString.Keys
          == set s | s in stringToDataPacketType && s !in keys :: stringToDataPacketType[s]
        invariant forall s :: s in stringToDataPacketType && s !in keys ==>
          stringToDataPacketType[s] in dataPacketTypeToString && dataPacketTypeToString[stringToDataPacketType[s]] == s
        decreases keys
      {
        var key :| key in keys;
        dataPacketTypeToString := dataPacketTypeToString[stringToDataPacketType[key] := key];
        keys := keys - {key};
      }
      assert dataPacketTypeToString.Keys == stringToDataPacketType.Values by {
        forall t | t in stringToDataPacketType.Values ensures t in dataPacketTypeToString {
          var s :| s in stringToDataPacketType && stringToDataPacketType[s] == t;
        }
        forall t | t in dataPacketTypeToString ensures t in stringToDataPacketType.Values {
          var s :| s in stringToDataPacketType && s !in keys && stringToDataPacketType[s] == t;
        }
      }
      CodecRoundTrip(dataPacketTypeToString);
    }

    /** Starts a scan only when a Unity muse listener is registered; otherwise logs an error. */
    method StartListening()
      modifies this`SdkCalls, this`Errors
      ensures |unityMuseListener| > 0 ==>
        SdkCalls == old(SdkCalls) + [ManagerStopListening, ManagerStartListening] && Errors == old(Errors)
      ensures |unityMuseListener| == 0 ==>
        SdkCalls == old(SdkCalls) && Errors == old(Errors) + [NoMuseListener]
    {
      if |unityMuseListener| > 0 {
        SdkCalls := SdkCalls + [ManagerStopListening, ManagerStartListening];
      } else {
        Errors := Errors + [NoMuseListener];
      }
    }

    method StopListening()
      modifies this`SdkCalls
      ensures SdkCalls == old(SdkCalls) + [ManagerStopListening]
    {
      SdkCalls := SdkCalls + [ManagerStopListening];
    }

    /**
     * Looks the headband up by name. If it is listed, stops the scan, makes
     * it the current headband and subscribes to the connection events and
     * to every requested packet type before starting its run loop;
     * otherwise only logs an error.
     */
    method Connect(headband: string)
      modifies this`muse, this`SdkCalls, this`Errors
      ensures headband in museHashMap ==>
        && muse == Some(museHashMap[headband])
        && SdkCalls == old(SdkCalls) + ConnectCalls(museHashMap[headband], dataTypeToListen)
        && Errors == old(Errors)
      ensures headband !in museHashMap ==>
        muse == old(muse) && SdkCalls == old(SdkCalls) && Errors == old(Errors) + [MuseNotFound(headband)]
    {
      if headband in museHashMap {
        SdkCalls := SdkCalls + [ManagerStopListening];
        var m := museHashMap[headband];
        muse := Some(m);
        SdkCalls := SdkCalls + [MuseUnregisterAllListeners(m), MuseRegisterConnectionListener(m)];
        for i := 0 to |dataTypeToListen|
          invariant SdkCalls == old(SdkCalls) + [ManagerStopListening, MuseUnregisterAllListeners(m), MuseRegisterConnectionListener(m)]
            + DataRegistrations(m, dataTypeToListen[..i])
          invariant muse == Some(m) && Errors == old(Errors)
        {
          assert dataTypeToListen[..i + 1][..i] == dataTypeToListen[..i];
          SdkCalls := SdkCalls + [MuseRegisterDataListener(m, dataTypeToListen[i])];
        }
        assert dataTypeToListen[..|dataTypeToListen|] == dataTypeToListen;
        SdkCalls := SdkCalls + [MuseRunAsynchronously(m)];
      } else {
        Errors := Errors + [MuseNotFound(headband)];
      }
    }

    /** Disconnects the current headband; the Java method dereferences it unchecked, so it must be set. */
    method Disconnect()
      requires muse.Some?
      modifies this`SdkCalls
      ensures SdkCalls == old(SdkCalls) + [MuseDisconnect(muse.value)]
    {
      SdkCalls := SdkCalls + [MuseDisconnect(muse.value)];
    }

    /**
     * Adds the packet type named `packetType` to the types to subscribe to
     * (duplicates kept); an unknown name is logged and changes nothing.
     */
    method ListenForDataPacket(packetType: string)
      requires Valid()
      modifies this`dataTypeToListen, this`Errors
      ensures packetType in NameMap() ==>
        && dataTypeToListen == old(dataTypeToListen) + [NameMap()[packetType]]
        && dataPacketTypeToString[dataTypeToListen[|dataTypeToListen| - 1]] == packetType
        && Errors == old(Errors)
      ensures packetType !in NameMap() ==>
        dataTypeToListen == old(dataTypeToListen) && Errors == old(Errors) + [InvalidPacketType(packetType)]
    {
      if packetType in stringToDataPacketType {
        dataTypeToListen := dataTypeToListen + [stringToDataPacketType[packetType]];
        CodecRoundTrip(dataPacketTypeToString);
      } else {
        Errors := Errors + [InvalidPacketType(packetType)];
      }
    }

    /** Each registration appends one (object, method) pair to its own list; the frame keeps the other three. */
    method RegisterMuseListener(obj: string, methodName: string)
      modifies this`unityMuseListener
      ensures unityMuseListener == old(unityMuseListener) + [Listener(obj, methodName)]
    {
      unityMuseListener := unityMuseListener + [Listener(obj, methodName)];
    }

    method RegisterConnectionListener(obj: string, methodName: string)
      modifies this`unityConnectionListener
      ensures unityConnectionListener == old(unityConnectionListener) + [Listener(obj, methodName)]
    {
      unityConnectionListener := unityConnectionListener + [Listener(obj, methodName)];
    }

    method RegisterDataListener(obj: string, methodName: string)
      modifies this`unityDataListener
      ensures unityDataListener == old(unityDataListener) + [Listener(obj, methodName)]
    {
      unityDataListener := unityDataListener + [Listener(obj, methodName)];
    }

    method RegisterArtifactListener(obj: string, methodName: string)
      modifies this`unityArtifactListener
      ensures unityArtifactListener == old(unityArtifactListener) + [Listener(obj, methodName)]
    {
      unityArtifactListener := unityArtifactListener + [Listener(obj, methodName)];
    }

    /** Sends `payload` to every listener of the list, in list order. */
    method Notify(listeners: seq<Listener>, payload: Payload)
      modifies this`Sent
      ensures Sent == old(Sent) + Deliveries(listeners, payload)
    {
      for i := 0 to |listeners|
        invariant Sent == old(Sent) + Deliveries(listeners[..i], payload)
      {
        assert listeners[..i + 1][..i] == listeners[..i];
        Sent := Sent + [Message(listeners[i].obj, listeners[i].methodName, payload)];
      }
      assert listeners[..|listeners|] == listeners;
    }

    /**
     * The SDK's list of headbands changed: record each one under its name
     * (without clearing the map) and send the space-terminated names to
     * every Unity muse listener.
     */
    method MuseListChanged(muses: seq<Muse>)
      modifies this`museHashMap, this`Sent
      ensures museHashMap == PutAll(old(museHashMap), muses)
      ensures Sent == old(Sent) + Deliveries(unityMuseListener, MuseList(JoinNames(muses)))
    {
      var names := "";
      for i := 0 to |muses|
        invariant museHashMap == PutAll(old(museHashMap), muses[..i])
        invariant names == JoinNames(muses[..i])
        invariant Sent == old(Sent)
      {
        assert muses[..i + 1][..i] == muses[..i];
        museHashMap := museHashMap[muses[i].name := muses[i]];
        names := names + muses[i].name + " ";
      }
      assert muses[..|muses|] == muses;
      Notify(unityMuseListener, MuseList(names));
    }

    /** Forwards both connection states to every Unity connection listener. */
    method ReceiveMuseConnectionPacket(p: ConnectionPacket)
      modifies this`Sent
      ensures Sent == old(Sent) + Deliveries(unityConnectionListener,
        ConnectionStatus(p.previousConnectionState, p.currentConnectionState))
    {
      Notify(unityConnectionListener, ConnectionStatus(p.previousConnectionState, p.currentConnectionState));
    }

    /**
     * Forwards the packet's type name, extracted values and timestamp to
     * every Unity data listener. When extraction overruns its table the
     * exception leaves the method before anything is sent.
     */
    method ReceiveMuseDataPacket(p: DataPacket)
      requires Valid()
      modifies this`Sent
      ensures Extract(p).IndexOutOfBounds? ==> Sent == old(Sent)
      ensures Extract(p).Values? ==> Sent == old(Sent) + Deliveries(unityDataListener,
        DataRecord(dataPacketTypeToString[p.packetType], Extract(p).values, p.timestamp))
    {
      var typeName := dataPacketTypeToString[p.packetType];
      var values := CreateDataArray(p);
      if values.IndexOutOfBounds? {
        return;
      }
      Notify(unityDataListener, DataRecord(typeName, values.values, p.timestamp));
    }

    /** Forwards the three artifact flags, as "true"/"false", to every Unity artifact listener. */
    method ReceiveMuseArtifactPacket(p: ArtifactPacket)
      modifies this`Sent
      ensures Sent == old(Sent) + Deliveries(unityArtifactListener,
        ArtifactRecord(BoolString(p.headbandOn), BoolString(p.blink), BoolString(p.jawClench)))
    {
      Notify(unityArtifactListener, ArtifactRecord(BoolString(p.headbandOn), BoolString(p.blink), BoolString(p.jawClench)));
    }
  }

  /**
   * A client scenario: an artifact listener registered twice receives an
   * artifact packet's record twice, and the data listener registered once
   * receives nothing.
   */
  method ArtifactFanOutScenario(p: ArtifactPacket)
  {
    var bridge := new LibmuseUnityProjectAndroid();
    bridge.RegisterDataListener("App", "receiveDataPackets");
    bridge.RegisterArtifactListener("App", "receiveArtifactPackets");
    bridge.RegisterArtifactListener("App", "receiveArtifactPackets");
    assert bridge.unityDataListener == [Listener("App", "receiveDataPackets")];
    assert bridge.unityMuseListener == [];

    bridge.ReceiveMuseArtifactPacket(p);
    var record := ArtifactRecord(BoolString(p.headbandOn), BoolString(p.blink), BoolString(p.jawClench));
    DeliveriesAt(bridge.unityArtifactListener, record);
    assert bridge.Sent == [Message("App", "receiveArtifactPackets", record), Message("App", "receiveArtifactPackets", record)];

    bridge.StartListening();
    assert bridge.Errors == [NoMuseListener] && bridge.SdkCalls == [];
  }
}
