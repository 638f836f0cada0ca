/**
 * Inbound packets as the SDK hands them to the bridge, and the per-type
 * extraction of a data packet's values (createDataJSONArray).
 */
module Packets {
  import opened PacketTypes

  /** A channel reading. The bridge only ever asks whether a reading is not-a-number. */
  datatype Value = NaN | Num(x: real)

  /** The SDK's channel enumerations, one per packet family. */
  datatype Accelerometer = FORWARD_BACKWARD | UP_DOWN | LEFT_RIGHT
  datatype Gyro = FORWARD_BACKWARD | UP_DOWN | LEFT_RIGHT
  datatype Battery = CHARGE_PERCENTAGE_REMAINING | MILLIVOLTS | TEMPERATURE_CELSIUS
  datatype DrlRef = DRL | REF
  datatype Eeg = EEG1 | EEG2 | EEG3 | EEG4 | AUX_LEFT | AUX_RIGHT

  /**
   * A data packet: its type, the number of values it reports, its
   * timestamp, and the SDK's getters, one per channel family.
   */
  datatype DataPacket = DataPacket(
    packetType: PacketType,
    valuesSize: int,
    timestamp: int,
    accelerometerValue: Accelerometer -> Value,
    gyroValue: Gyro -> Value,
    batteryValue: Battery -> Value,
    drlRefValue: DrlRef -> Value,
    eegChannelValue: Eeg -> Value)

  /** A connection packet carries the previous and the current connection state (SDK enum ordinals). */
  datatype ConnectionPacket = ConnectionPacket(previousConnectionState: nat, currentConnectionState: nat)

  /** An artifact packet carries three flags. */
  datatype ArtifactPacket = ArtifactPacket(headbandOn: bool, blink: bool, jawClench: bool)

  /** The fixed index -> channel tables. */
  const AccelMap: seq<Accelerometer> :=
    [Accelerometer.FORWARD_BACKWARD, Accelerometer.UP_DOWN, Accelerometer.LEFT_RIGHT]
  const BatteryMap: seq<Battery> := [CHARGE_PERCENTAGE_REMAINING, MILLIVOLTS, TEMPERATURE_CELSIUS]
  const DrlMap: seq<DrlRef> := [DRL, REF]
  const GyroMap: seq<Gyro> := [Gyro.FORWARD_BACKWARD, Gyro.UP_DOWN, Gyro.LEFT_RIGHT]
  const EegMap: seq<Eeg> := [EEG1, EEG2, EEG3, EEG4, AUX_LEFT, AUX_RIGHT]

  /** Every type other than these four is EEG or derived from EEG and is read through the EEG table. */
  predicate IsEegFamily(t: PacketType)
  {
    !(t.ACCELEROMETER? || t.BATTERY? || t.DRL_REF? || t.GYRO?)
  }

  /** The length of the table that a packet type is read through. */
  function TableLength(t: PacketType): nat
  {
    match t
    case ACCELEROMETER => |AccelMap|
    case BATTERY => |BatteryMap|
    case DRL_REF => |DrlMap|
    case GYRO => |GyroMap|
    case _ => |EegMap|
  }

  /** The raw reading of the i-th channel of the packet's table. */
  function RawValue(p: DataPacket, i: nat): Value
    requires i < TableLength(p.packetType)
  {
    match p.packetType
    case ACCELEROMETER => p.accelerometerValue(AccelMap[i])
    case BATTERY => p.batteryValue(BatteryMap[i])
    case DRL_REF => p.drlRefValue(DrlMap[i])
    case GYRO => p.gyroValue(GyroMap[i])
    case _ => p.eegChannelValue(EegMap[i])
  }

  function ZeroIfNaN(v: Value): Value
  {
    if v.NaN? then Num(0.0) else v
  }

  /** The element that extraction puts at position i: the raw reading, with NaN replaced by 0 in the EEG family. */
  function ElementAt(p: DataPacket, i: nat): Value
    requires i < TableLength(p.packetType)
  {
    if IsEegFamily(p.packetType) then ZeroIfNaN(RawValue(p, i)) else RawValue(p, i)
  }

  /**
   * The outcome of extraction: the values, or the index at which the
   * fixed table was overrun (an ArrayIndexOutOfBoundsException, which
   * nothing in the bridge catches).
   */
  datatype Extraction = Values(values: seq<Value>) | IndexOutOfBounds(index: nat)

  /** How many elements a loop from 0 to valuesSize visits. */
  function Count(valuesSize: int): nat
  {
    if valuesSize < 0 then 0 else valuesSize
  }

  /** What extraction of a packet yields. */
  function Extract(p: DataPacket): Extraction
  {
    if p.valuesSize > TableLength(p.packetType) then IndexOutOfBounds(TableLength(p.packetType))
    else Values(seq(Count(p.valuesSize), i requires 0 <= i < Count(p.valuesSize) => ElementAt(p, i)))
  }

  /**
   * createDataJSONArray: for i from 0 while i < valuesSize, read channel i
   * of the packet type's table and append it; in the EEG family a NaN
   * reading is appended as 0.
   */
  method CreateDataArray(p: DataPacket) returns (r: Extraction)
    ensures r.Values? <==> p.valuesSize <= TableLength(p.packetType)
    ensures r.Values? ==> |r.values| == Count(p.valuesSize)
    ensures r.Values? ==> forall i :: 0 <= i < |r.values| ==> r.values[i] == ElementAt(p, i)
    ensures r.IndexOutOfBounds? ==> r.index == TableLength(p.packetType)
    ensures r == Extract(p)
  {
    var result: seq<Value> := [];
    var i := 0;
    while i < p.valuesSize
      invariant 0 <= i <= Count(p.valuesSize) && i <= TableLength(p.packetType)
      invariant |result| == i
      invariant forall k :: 0 <= k < i ==> result[k] == ElementAt(p, k)
    {
      var value: Value;
      match p.packetType {
        case ACCELEROMETER =>
          if i >= |AccelMap| { return IndexOutOfBounds(i); }
          value := p.accelerometerValue(AccelMap[i]);
        case BATTERY =>
          if i >= |BatteryMap| { return IndexOutOfBounds(i); }
          value := p.batteryValue(BatteryMap[i]);
        case DRL_REF =>
          if i >= |DrlMap| { return IndexOutOfBounds(i); }
          value := p.drlRefValue(DrlMap[i]);
        case GYRO =>
          if i >= |GyroMap| { return IndexOutOfBounds(i); }
          value := p.gyroValue(GyroMap[i]);
        case _ =>
          if i >= |EegMap| { return IndexOutOfBounds(i); }
          var raw := p.eegChannelValue(EegMap[i]);
          value := if raw.NaN? then Num(0.0) else raw;
      }
      result := result + [value];
      i := i + 1;
    }
    r := Values(result);
  }

  /** In the EEG family no extracted element is NaN; a reading that is not NaN is passed through as it is. */
  lemma EegFamilyHasNoNaN(p: DataPacket)
    requires IsEegFamily(p.packetType) && Extract(p).Values?
    ensures forall i :: 0 <= i < |Extract(p).values| ==> !Extract(p).values[i].NaN?
    ensures forall i :: 0 <= i < |Extract(p).values| ==>
      Extract(p).values[i] == if RawValue(p, i).NaN? then Num(0.0) else RawValue(p, i)
  {
  }

  /** Outside the EEG family every element is the raw reading, NaN included: no substitution. */
  lemma OtherFamiliesPassThrough(p: DataPacket)
    requires !IsEegFamily(p.packetType) && Extract(p).Values?
    ensures forall i :: 0 <= i < |Extract(p).values| ==> Extract(p).values[i] == RawValue(p, i)
  {
  }

  /** Extraction succeeds exactly when valuesSize fits the table, and then yields valuesSize elements (none if negative). */
  lemma ExtractBounds(p: DataPacket)
    ensures Extract(p).Values? <==> p.valuesSize <= TableLength(p.packetType)
    ensures Extract(p).Values? ==> |Extract(p).values| == Count(p.valuesSize)
    ensures TableLength(p.packetType) == match p.packetType
      case ACCELEROMETER => 3 case GYRO => 3 case BATTERY => 3 case DRL_REF => 2 case _ => 6
  {
  }

  /** A full accelerometer packet is read in axis order forward-backward, up-down, left-right. */
  lemma AccelerometerOrder(p: DataPacket)
    requires p.packetType == ACCELEROMETER && p.valuesSize == 3
    ensures Extract(p) == Values([
      p.accelerometerValue(Accelerometer.FORWARD_BACKWARD),
      p.accelerometerValue(Accelerometer.UP_DOWN),
      p.accelerometerValue(Accelerometer.LEFT_RIGHT)])
  {
  }

  /** A full gyro packet is read in axis order forward-backward, up-down, left-right. */
  lemma GyroOrder(p: DataPacket)
    requires p.packetType == GYRO && p.valuesSize == 3
    ensures Extract(p) == Values([
      p.gyroValue(Gyro.FORWARD_BACKWARD), p.gyroValue(Gyro.UP_DOWN), p.gyroValue(Gyro.LEFT_RIGHT)])
  {
  }

  /** A full battery packet is read as charge percentage, millivolts, temperature. */
  lemma BatteryOrder(p: DataPacket)
    requires p.packetType == BATTERY && p.valuesSize == 3
    ensures Extract(p) == Values([
      p.batteryValue(CHARGE_PERCENTAGE_REMAINING), p.batteryValue(MILLIVOLTS), p.batteryValue(TEMPERATURE_CELSIUS)])
  {
  }

  /** A full DRL/REF packet is read as DRL then REF. */
  lemma DrlRefOrder(p: DataPacket)
    requires p.packetType == DRL_REF && p.valuesSize == 2
    ensures Extract(p) == Values([p.drlRefValue(DRL), p.drlRefValue(REF)])
  {
  }

  /** A full EEG-family packet is read as EEG1..EEG4, AUX_LEFT, AUX_RIGHT, each with NaN replaced by 0. */
  lemma EegOrder(p: DataPacket)
    requires IsEegFamily(p.packetType) && p.valuesSize == 6
    ensures Extract(p) == Values([
      ZeroIfNaN(p.eegChannelValue(EEG1)), ZeroIfNaN(p.eegChannelValue(EEG2)),
      ZeroIfNaN(p.eegChannelValue(EEG3)), ZeroIfNaN(p.eegChannelValue(EEG4)),
      ZeroIfNaN(p.eegChannelValue(AUX_LEFT)), ZeroIfNaN(p.eegChannelValue(AUX_RIGHT))])
  {
  }

  /** An EEG packet with readings 1, NaN, 3, 4, 5, 6 yields 1, 0, 3, 4, 5, 6. */
  lemma EegNaNExample(p: DataPacket)
    requires p.packetType == EEG && p.valuesSize == 6
    requires p.eegChannelValue(EEG1) == Num(1.0) && p.eegChannelValue(EEG2) == NaN
    requires p.eegChannelValue(EEG3) == Num(3.0) && p.eegChannelValue(EEG4) == Num(4.0)
    requires p.eegChannelValue(AUX_LEFT) == Num(5.0) && p.eegChannelValue(AUX_RIGHT) == Num(6.0)
    ensures Extract(p) == Values([Num(1.0), Num(0.0), Num(3.0), Num(4.0), Num(5.0), Num(6.0)])
  {
    EegOrder(p);
  }
}
