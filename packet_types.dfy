/**
 * The packet-type codec: the 23 names that the Unity side may pass to
 * `listenForDataPacket`, the SDK packet type each one stands for, and the
 * facts about the name map that make its reverse map well defined.
 */
module PacketTypes {

  /** The SDK's data packet types that the bridge knows by name. */
  datatype PacketType =
    | ACCELEROMETER | GYRO | EEG | QUANTIZATION | BATTERY | DRL_REF
    | ALPHA_ABSOLUTE | BETA_ABSOLUTE | DELTA_ABSOLUTE | THETA_ABSOLUTE | GAMMA_ABSOLUTE
    | ALPHA_RELATIVE | BETA_RELATIVE | DELTA_RELATIVE | THETA_RELATIVE | GAMMA_RELATIVE
    | ALPHA_SCORE | BETA_SCORE | DELTA_SCORE | THETA_SCORE | GAMMA_SCORE
    | HSI_PRECISION | ARTIFACTS

  /** The (name, type) pairs put into the name map, in the order of the puts. */
  const Table: seq<(string, PacketType)> := [
    ("ACCELEROMETER", ACCELEROMETER), ("GYRO", GYRO), ("EEG", EEG),
    ("QUANTIZATION", QUANTIZATION), ("BATTERY", BATTERY), ("DRL_REF", DRL_REF),
    ("ALPHA_ABSOLUTE", ALPHA_ABSOLUTE), ("BETA_ABSOLUTE", BETA_ABSOLUTE),
    ("DELTA_ABSOLUTE", DELTA_ABSOLUTE), ("THETA_ABSOLUTE", THETA_ABSOLUTE),
    ("GAMMA_ABSOLUTE", GAMMA_ABSOLUTE), ("ALPHA_RELATIVE", ALPHA_RELATIVE),
    ("BETA_RELATIVE", BETA_RELATIVE), ("DELTA_RELATIVE", DELTA_RELATIVE),
    ("THETA_RELATIVE", THETA_RELATIVE), ("GAMMA_RELATIVE", GAMMA_RELATIVE),
    ("ALPHA_SCORE", ALPHA_SCORE), ("BETA_SCORE", BETA_SCORE), ("DELTA_SCORE", DELTA_SCORE),
    ("THETA_SCORE", THETA_SCORE), ("GAMMA_SCORE", GAMMA_SCORE),
    ("HSI_PRECISION", HSI_PRECISION), ("ARTIFACTS", ARTIFACTS)
  ]

  /** The map obtained by putting the pairs of `t` one after the other; a later put of a name wins. */
  function PutPairs(t: seq<(string, PacketType)>): map<string, PacketType>
  {
    if t == [] then map[] else PutPairs(t[..|t| - 1])[t[|t| - 1].0 := t[|t| - 1].1]
  }

  /** The name -> packet type map that the bridge builds at start-up. */
  function NameMap(): map<string, PacketType>
  {
    PutPairs(Table)
  }

  ghost predicate DistinctNames(t: seq<(string, PacketType)>)
  {
    forall i, j :: 0 <= i < j < |t| ==> t[i].0 != t[j].0
  }

  ghost predicate DistinctTypes(t: seq<(string, PacketType)>)
  {
    forall i, j :: 0 <= i < j < |t| ==> t[i].1 != t[j].1
  }

  /** No two names map to the same packet type. */
  ghost predicate Injective(m: map<string, PacketType>)
  {
    forall a, b :: a in m && b in m && m[a] == m[b] ==> a == b
  }

  /** `r` is the reverse of `m`: it has one key per value of `m` and sends it back to its name. */
  ghost predicate IsInverse(m: map<string, PacketType>, r: map<PacketType, string>)
  {
    && r.Keys == m.Values
    && forall s :: s in m ==> r[m[s]] == s
  }

  /** The names of the table, as a set. */
  ghost function TableNames(t: seq<(string, PacketType)>): set<string>
  {
    set i | 0 <= i < |t| :: t[i].0
  }

  /** The last name of a non-empty table is not among the names before it. */
  lemma TableNamesSnoc(t: seq<(string, PacketType)>)
    requires t != [] && DistinctNames(t)
    ensures TableNames(t) == TableNames(t[..|t| - 1]) + {t[|t| - 1].0}
    ensures t[|t| - 1].0 !in TableNames(t[..|t| - 1])
  {
    var init, last := t[..|t| - 1], t[|t| - 1];
    forall s | s in TableNames(t) ensures s in TableNames(init) + {last.0} {
      var i :| 0 <= i < |t| && t[i].0 == s;
      if i < |t| - 1 { assert init[i] == t[i]; }
    }
    forall s | s in TableNames(init) ensures s in TableNames(t) {
      var i :| 0 <= i < |init| && init[i].0 == s;
      assert t[i] == init[i];
    }
    forall i | 0 <= i < |init| ensures init[i].0 != last.0 {
      assert init[i] == t[i];
    }
  }

  /** With distinct names, putting the pairs yields one key per pair. */
  lemma {:induction false} PutPairsKeys(t: seq<(string, PacketType)>)
    requires DistinctNames(t)
    ensures PutPairs(t).Keys == TableNames(t)
    ensures |PutPairs(t)| == |t|
  {
    if t != [] {
      var init := t[..|t| - 1];
      assert DistinctNames(init) by {
        forall i, j | 0 <= i < j < |init| ensures init[i].0 != init[j].0 {
          assert init[i] == t[i] && init[j] == t[j];
        }
      }
      PutPairsKeys(init);
      TableNamesSnoc(t);
    }
  }

  /** With distinct names, each name of the table maps to its own type. */
  lemma {:induction false} PutPairsLookup(t: seq<(string, PacketType)>)
    requires DistinctNames(t)
    ensures forall i :: 0 <= i < |t| ==> t[i].0 in PutPairs(t) && PutPairs(t)[t[i].0] == t[i].1
  {
    if t != [] {
      var init := t[..|t| - 1];
      assert DistinctNames(init) by {
        forall i, j | 0 <= i < j < |init| ensures init[i].0 != init[j].0 {
          assert init[i] == t[i] && init[j] == t[j];
        }
      }
      PutPairsLookup(init);
      forall i | 0 <= i < |t| ensures t[i].0 in PutPairs(t) && PutPairs(t)[t[i].0] == t[i].1 {
        if i < |t| - 1 {
          assert init[i] == t[i];
        }
      }
    }
  }

  /** A map built from pairs with distinct types sends different names to different types. */
  lemma PutPairsInjective(t: seq<(string, PacketType)>)
    requires DistinctNames(t) && DistinctTypes(t)
    ensures Injective(PutPairs(t))
  {
    PutPairsKeys(t);
    PutPairsLookup(t);
    var m := PutPairs(t);
    forall a, b | a in m && b in m && m[a] == m[b] ensures a == b {
      var i :| 0 <= i < |t| && t[i].0 == a;
      var j :| 0 <= j < |t| && t[j].0 == b;
      assert t[i].1 == t[j].1;
    }
  }

  /** The position of each packet type in the table. */
  function Ordinal(t: PacketType): nat
  {
    match t
    case ACCELEROMETER => 0 case GYRO => 1 case EEG => 2 case QUANTIZATION => 3
    case BATTERY => 4 case DRL_REF => 5 case ALPHA_ABSOLUTE => 6 case BETA_ABSOLUTE => 7
    case DELTA_ABSOLUTE => 8 case THETA_ABSOLUTE => 9 case GAMMA_ABSOLUTE => 10
    case ALPHA_RELATIVE => 11 case BETA_RELATIVE => 12 case DELTA_RELATIVE => 13
    case THETA_RELATIVE => 14 case GAMMA_RELATIVE => 15 case ALPHA_SCORE => 16
    case BETA_SCORE => 17 case DELTA_SCORE => 18 case THETA_SCORE => 19
    case GAMMA_SCORE => 20 case HSI_PRECISION => 21 case ARTIFACTS => 22
  }

  lemma TableNamesDistinct()
    ensures DistinctNames(Table)
  {
  }

  lemma TableTypesDistinct()
    ensures DistinctTypes(Table)
  {
    assert forall i :: 0 <= i < |Table| ==> Ordinal(Table[i].1) == i;
  }

  /** The name map holds exactly the 23 names of the table. */
  lemma NameMapSize()
    ensures NameMap().Keys == TableNames(Table)
    ensures |NameMap()| == 23
  {
    TableNamesDistinct();
    PutPairsKeys(Table);
  }

  /** Each of the 23 names maps to the packet type it is put with. */
  lemma NameMapLookup()
    ensures forall i :: 0 <= i < |Table| ==> Table[i].0 in NameMap() && NameMap()[Table[i].0] == Table[i].1
  {
    TableNamesDistinct();
    PutPairsLookup(Table);
  }

  /** No two names share a packet type, so the reverse map loses nothing. */
  lemma NameMapInjective()
    ensures Injective(NameMap())
  {
    TableNamesDistinct();
    TableTypesDistinct();
    PutPairsInjective(Table);
  }

  /** Every packet type has a name. */
  lemma NameMapCoversTypes()
    ensures forall t: PacketType :: t in NameMap().Values
  {
    NameMapLookup();
    forall t: PacketType ensures t in NameMap().Values {
      var i := Ordinal(t);
      assert Table[i].1 == t;
      assert NameMap()[Table[i].0] == t;
    }
  }

  /**
   * Whatever reverse map satisfies `IsInverse` for the name map: it has
   * every packet type as a key, 23 keys in all, and the round trip through
   * both maps is the identity in both directions.
   */
  lemma CodecRoundTrip(r: map<PacketType, string>)
    requires IsInverse(NameMap(), r)
    ensures forall t: PacketType :: t in r
    ensures forall t :: t in r ==> r[t] in NameMap() && NameMap()[r[t]] == t
    ensures forall s :: s in NameMap() ==> NameMap()[s] in r && r[NameMap()[s]] == s
    ensures |r| == 23
  {
    NameMapCoversTypes();
    var m := NameMap();
    forall t | t in r ensures r[t] in m && m[r[t]] == t {
      var s :| s in m && m[s] == t;
    }
    NameMapSize();
    NameMapInjective();
    InverseSize(m, r);
  }

  /** An injective map and its inverse have the same number of entries. */
  lemma {:induction false} InverseSize(m: map<string, PacketType>, r: map<PacketType, string>)
    requires Injective(m) && IsInverse(m, r)
    ensures |r| == |m|
    decreases |m|
  {
    if m != map[] {
      var s :| s in m;
      var m', r' := m - {s}, r - {m[s]};
      assert r'.Keys == m'.Values by {
        forall t | t in r' ensures t in m'.Values {
          var s' :| s' in m && m[s'] == t;
          assert s' != s;
          assert m'[s'] == t;
        }
        forall t | t in m'.Values ensures t in r' {
          var s' :| s' in m' && m'[s'] == t;
          assert m[s'] == t;
        }
      }
      InverseSize(m', r');
    }
  }

  /**
   * The reverse map does not depend on the order in which the names are
   * visited: for an injective map there is only one inverse.
   */
  lemma InverseIsUnique(m: map<string, PacketType>, r1: map<PacketType, string>, r2: map<PacketType, string>)
    requires IsInverse(m, r1) && IsInverse(m, r2)
    ensures r1 == r2
  {
    forall t | t in r1 ensures r1[t] == r2[t] {
      var s :| s in m && m[s] == t;
    }
  }

  /** The reverse map names the EEG type "EEG" and sends "EEG" back to EEG. */
  lemma EegName(r: map<PacketType, string>)
    requires IsInverse(NameMap(), r)
    ensures EEG in r && r[EEG] == "EEG" && NameMap()["EEG"] == EEG
  {
    NameMapLookup();
    assert Table[2] == ("EEG", EEG);
    CodecRoundTrip(r);
  }
}
