// The older save helpers of the storage package (dag/storage/saver.go): the
// 8-byte block-number encoding, the header and contract key formats, the
// duplicate-free key lists kept under a fixed key or a tag, contract ids and
// the guard that keeps unsigned joints out of the store.

module Saver {
  import opened Common
  import opened Modules
  import opened Store

  /** encodeBlockNumber: a uint64 as 8 bytes, most significant first; reading
      them back big-endian gives the number. */
  function EncodeBlockNumber(number: nat): (enc: Bytes)
    requires number < U64
    ensures |enc| == 8
    ensures BigEndian(enc) == number
  {
    assert Pow256(8) == U64;
    BigEndianOfEncode(number, 8);
    EncodeBigEndian(number, 8)
  }

  lemma BytesToStringInjective(a: Bytes, b: Bytes)
    requires BytesToString(a) == BytesToString(b)
    ensures a == b
  {
    assert |a| == |b|;
    forall i | 0 <= i < |a| ensures a[i] == b[i] {
      assert BytesToString(a)[i] == BytesToString(b)[i];
    }
  }

  // ---------------------------------------------------------------------------
  // Header keys

  /** The key SaveHeader stores a header under: HEADER_PREFIX, the 8-byte
      chain index number, ChainIndex.Bytes() and the unit hash. */
  function HeaderKey(e: StoreEnv, h: Header, uHash: Hash): string
    requires h.number.index < U64
  {
    e.p.header + BytesToString(EncodeBlockNumber(h.number.index))
      + BytesToString(e.c.indexBytes(h.number)) + BytesToString(uHash)
  }

  /** The eight bytes after the prefix carry the number: two headers stored
      under the same key have the same chain index number. */
  lemma HeaderKeyFixesNumber(e: StoreEnv, h1: Header, u1: Hash, h2: Header, u2: Hash)
    requires h1.number.index < U64 && h2.number.index < U64
    requires HeaderKey(e, h1, u1) == HeaderKey(e, h2, u2)
    ensures h1.number.index == h2.number.index
  {
    var n := |e.p.header|;
    var b1 := EncodeBlockNumber(h1.number.index);
    var b2 := EncodeBlockNumber(h2.number.index);
    assert HeaderKey(e, h1, u1)[n..n + 8] == BytesToString(b1);
    assert HeaderKey(e, h2, u2)[n..n + 8] == BytesToString(b2);
    BytesToStringInjective(b1, b2);
  }

  /** DagDatabase.SaveHeader: the header's RLP encoding under HeaderKey. */
  method SaveHeader(db: Database, uHash: Hash, h: Header)
    requires h.number.index < U64
    modifies db
    ensures db.kv == old(db.kv)[HeaderKey(db.env, h, uHash) := db.env.rlpEncode(VHeader(h))]
  {
    db.StoreBytes(HeaderKey(db.env, h, uHash), VHeader(h));
  }

  // ---------------------------------------------------------------------------
  // Key lists without duplicates

  /** The fixed key of the unit key list. */
  const UnitKeysKey: string := "array_units"

  predicate NoDuplicates(s: seq<string>)
  {
    forall i, j :: 0 <= i < j < |s| ==> s[i] != s[j]
  }

  /** GetUnitKeys: a missing entry gives the empty list; otherwise whatever
      rlp.DecodeBytes leaves in the list, since its error is only logged. */
  function UnitKeys(e: StoreEnv, kv: map<string, Bytes>): (r: seq<string>)
    ensures UnitKeysKey !in kv ==> r == []
    ensures (FillsAgree(e) && UnitKeysKey in kv && e.rlpDecode(kv[UnitKeysKey]).Some?
             && e.rlpDecode(kv[UnitKeysKey]).value.VKeys?) ==> r == e.rlpDecode(kv[UnitKeysKey]).value.keys
  {
    if UnitKeysKey !in kv then [] else e.rlpKeysFilled(kv[UnitKeysKey])
  }

  /** GetKeysWithTag: a missing entry gives the empty list; otherwise whatever
      json.Unmarshal leaves in the list, since its error is only logged. */
  function KeysWithTag(e: StoreEnv, kv: map<string, Bytes>, tag: string): (r: seq<string>)
    ensures tag !in kv ==> r == []
    ensures (FillsAgree(e) && tag in kv && e.jsonDecode(kv[tag]).Some?
             && e.jsonDecode(kv[tag]).value.VKeys?) ==> r == e.jsonDecode(kv[tag]).value.keys
  {
    if tag !in kv then [] else e.jsonKeysFilled(kv[tag])
  }

  /** The rule AddUnitKeys and AddKeysWithTag apply to the list they read: an
      empty list and a key already present are errors; otherwise the key is
      appended. */
  function KeyAdded(keys: seq<string>, key: string): (r: Result<seq<string>, StoreError>)
    ensures r.Err? <==> |keys| == 0 || key in keys
    ensures |keys| == 0 ==> r == Err(NullKeys)
    ensures r.Ok? ==> |r.value| == |keys| + 1 && r.value[..|keys|] == keys && r.value[|keys|] == key
  {
    if |keys| == 0 then Err(NullKeys)
    else if key in keys then Err(KeyExists)
    else Ok(keys + [key])
  }

  /** Appending under KeyAdded never introduces a duplicate, and the key is
      then present. */
  lemma KeyAddedKeepsDistinct(keys: seq<string>, key: string)
    requires NoDuplicates(keys) && KeyAdded(keys, key).Ok?
    ensures NoDuplicates(KeyAdded(keys, key).value)
    ensures key in KeyAdded(keys, key).value
  {
    var r := KeyAdded(keys, key).value;
    assert key !in keys;
    forall i, j | 0 <= i < j < |r| ensures r[i] != r[j] {
      if j == |keys| {
        assert r[i] == keys[i];
      } else {
        assert r[i] == keys[i] && r[j] == keys[j];
      }
    }
    assert r[|keys|] == key;
  }

  /** The store after AddUnitKeys(key). */
  function UnitKeyAdded(e: StoreEnv, kv: map<string, Bytes>, key: string): map<string, Bytes>
  {
    match KeyAdded(UnitKeys(e, kv), key)
    case Ok(ks) => kv[UnitKeysKey := e.rlpEncode(VKeys(ks))]
    case Err(_) => kv
  }

  /** The store after AddKeysWithTag(key, tag). */
  function TagKeyAdded(e: StoreEnv, kv: map<string, Bytes>, key: string, tag: string): map<string, Bytes>
  {
    match KeyAdded(KeysWithTag(e, kv, tag), key)
    case Ok(ks) => kv[tag := e.jsonEncode(VKeys(ks))]
    case Err(_) => kv
  }

  /** Whether key is among keys, scanning in order. */
  method ContainsKey(keys: seq<string>, key: string) returns (found: bool)
    ensures found <==> key in keys
  {
    var i := 0;
    while i < |keys|
      invariant 0 <= i <= |keys|
      invariant key !in keys[..i]
    {
      if keys[i] == key {
        return true;
      }
      assert keys[..i + 1] == keys[..i] + [keys[i]];
      i := i + 1;
    }
    assert keys[..i] == keys;
    return false;
  }

  /** AddUnitKeys: appends key to the unit key list unless the list is empty or
      already holds it. */
  method AddUnitKeys(db: Database, key: string) returns (err: Option<StoreError>)
    modifies db
    ensures err.Some? <==> KeyAdded(UnitKeys(db.env, old(db.kv)), key).Err?
    ensures err.Some? ==> err.value == KeyAdded(UnitKeys(db.env, old(db.kv)), key).error
    ensures db.kv == UnitKeyAdded(db.env, old(db.kv), key)
  {
    var keys := UnitKeys(db.env, db.kv);
    if |keys| <= 0 {
      return Some(NullKeys);
    }
    var found := ContainsKey(keys, key);
    if found {
      return Some(KeyExists);
    }
    keys := keys + [key];
    db.StoreBytes(UnitKeysKey, VKeys(keys));
    return None;
  }

  /** AddKeysWithTag: the same rule for the JSON list stored under the tag. */
  method AddKeysWithTag(db: Database, key: string, tag: string) returns (err: Option<StoreError>)
    modifies db
    ensures err.Some? <==> KeyAdded(KeysWithTag(db.env, old(db.kv), tag), key).Err?
    ensures err.Some? ==> err.value == KeyAdded(KeysWithTag(db.env, old(db.kv), tag), key).error
    ensures db.kv == TagKeyAdded(db.env, old(db.kv), key, tag)
  {
    var keys := KeysWithTag(db.env, db.kv, tag);
    if |keys| <= 0 {
      return Some(NullKeys);
    }
    var found := ContainsKey(keys, key);
    if found {
      return Some(KeyExists);
    }
    keys := keys + [key];
    db.Put(tag, db.env.jsonEncode(VKeys(keys)));
    return None;
  }

  /** With a codec that round-trips, a successful AddUnitKeys leaves the old list
      with key appended, and a duplicate-free list stays duplicate-free. */
  lemma UnitKeysStayDistinct(e: StoreEnv, kv: map<string, Bytes>, key: string)
    requires RlpRoundTrips(e) && FillsAgree(e)
    requires NoDuplicates(UnitKeys(e, kv))
    ensures KeyAdded(UnitKeys(e, kv), key).Ok? ==>
              UnitKeys(e, UnitKeyAdded(e, kv, key)) == UnitKeys(e, kv) + [key]
    ensures NoDuplicates(UnitKeys(e, UnitKeyAdded(e, kv, key)))
  {
    var r := KeyAdded(UnitKeys(e, kv), key);
    if r.Ok? {
      var ks := r.value;
      assert e.rlpDecode(e.rlpEncode(VKeys(ks))) == Some(VKeys(ks));
      assert ks == UnitKeys(e, kv) + [key];
      KeyAddedKeepsDistinct(UnitKeys(e, kv), key);
    }
  }

  /** The same for AddKeysWithTag and its JSON list. */
  lemma TagKeysStayDistinct(e: StoreEnv, kv: map<string, Bytes>, key: string, tag: string)
    requires JsonRoundTrips(e) && FillsAgree(e)
    requires NoDuplicates(KeysWithTag(e, kv, tag))
    ensures KeyAdded(KeysWithTag(e, kv, tag), key).Ok? ==>
              KeysWithTag(e, TagKeyAdded(e, kv, key, tag), tag) == KeysWithTag(e, kv, tag) + [key]
    ensures NoDuplicates(KeysWithTag(e, TagKeyAdded(e, kv, key, tag), tag))
  {
    var r := KeyAdded(KeysWithTag(e, kv, tag), key);
    if r.Ok? {
      var ks := r.value;
      assert e.jsonDecode(e.jsonEncode(VKeys(ks))) == Some(VKeys(ks));
      assert ks == KeysWithTag(e, kv, tag) + [key];
      KeyAddedKeepsDistinct(KeysWithTag(e, kv, tag), key);
    }
  }

  // ---------------------------------------------------------------------------
  // Contracts

  /** common.EmptyHash: the all-zero hash. */
  predicate EmptyHash(h: Hash)
  {
    h == ZeroHash()
  }

  /** The id SaveContract copies out of a contract hash into an all-zero id: the
      hash's last bytes, aligned to the end of the 32-byte id. */
  function IdFromHash(ids: Bytes): (id: Hash)
    ensures |id| == HashLength
    ensures forall j :: 0 <= j < HashLength && HashLength - |ids| <= j ==>
              id[j] == ids[|ids| - HashLength + j]
    ensures forall j :: 0 <= j < HashLength - |ids| ==> id[j] == 0
  {
    if |ids| > HashLength then ids[|ids| - HashLength..]
    else Zeros(HashLength - |ids|) + ids
  }

  /** The contract SaveContract stores: CodeHash filled in when empty, then Id
      derived from the contract's hash when empty. */
  function ContractSaved(e: StoreEnv, contract: Contract): Contract
  {
    var c1 := if EmptyHash(contract.codeHash) then contract.(codeHash := e.codeHash(contract.code)) else contract;
    if EmptyHash(c1.id) then c1.(id := IdFromHash(e.contractHash(c1))) else c1
  }

  /** A set CodeHash and a set Id are kept; an empty Id becomes a 32-byte id;
      nothing else changes. */
  lemma ContractSavedKeeps(e: StoreEnv, contract: Contract)
    ensures var s := ContractSaved(e, contract);
            s.code == contract.code && s.rest == contract.rest
            && (!EmptyHash(contract.codeHash) ==> s.codeHash == contract.codeHash)
            && (EmptyHash(contract.codeHash) ==> s.codeHash == e.codeHash(contract.code))
            && (!EmptyHash(contract.id) ==> s.id == contract.id)
            && (EmptyHash(contract.id) ==> |s.id| == HashLength)
  {
  }

  function ContractKey(e: StoreEnv, id: Hash): string
  {
    e.p.contract + BytesToString(id)
  }

  /** SaveContract: fills in CodeHash and Id when they are empty, stores the
      contract's RLP under CONTRACT_PTEFIX ++ Id and returns the Id. */
  method SaveContract(db: Database, contract: Contract) returns (id: Hash, saved: Contract)
    modifies db
    ensures saved == ContractSaved(db.env, contract) && id == saved.id
    ensures db.kv == old(db.kv)[ContractKey(db.env, id) := db.env.rlpEncode(VContract(saved))]
  {
    saved := contract;
    if EmptyHash(saved.codeHash) {
      saved := saved.(codeHash := db.env.codeHash(saved.code));
    }
    if EmptyHash(saved.id) {
      var ids := db.env.contractHash(saved);
      if |ids| > HashLength {
        saved := saved.(id := ids[|ids| - HashLength..]);
      } else {
        saved := saved.(id := Zeros(HashLength - |ids|) + ids);
      }
    }
    id := saved.id;
    db.StoreBytes(ContractKey(db.env, id), VContract(saved));
  }

  // ---------------------------------------------------------------------------
  // Contract state and template keys

  /** SaveContractState's key: prefix, id, "^*^", name, "^*^" and the version's text. */
  function ContractStateKey(c: Codec, prefix: Bytes, id: Bytes, name: string, version: StateVersion): string
  {
    BytesToString(prefix) + BytesToString(id) + VersionSeparator + name + VersionSeparator + c.versionString(version)
  }

  /** SaveContractTemplate's key: CONTRACT_TPL, the template id, "^*^bytecode^*^"
      and the version. */
  function ContractTemplateKey(e: StoreEnv, templateId: Bytes, version: string): string
  {
    e.p.contractTpl + BytesToString(templateId) + "^*^bytecode^*^" + version
  }

  /** The version's text reads back as the version. */
  ghost predicate VersionTextRoundTrips(c: Codec)
  {
    forall v: StateVersion :: c.decodeVersion(c.versionString(v)) == Some(v)
  }

  /** A contract-state key splits on "^*^" into owner, name and version text when
      the parts do not contain the separator, so StateVersion.ParseStringKey
      understands it and (with a version text that round-trips) finds the
      version it was saved with. */
  lemma ContractStateKeyParses(c: Codec, prefix: Bytes, id: Bytes, name: string, version: StateVersion, v0: StateVersion)
    requires '^' !in BytesToString(prefix) + BytesToString(id) && '^' !in name
    requires Free(c.versionString(version), VersionSeparator)
    ensures Split(ContractStateKey(c, prefix, id, name, version), VersionSeparator)
              == [BytesToString(prefix) + BytesToString(id), name, c.versionString(version)]
    ensures VersionTextRoundTrips(c) ==>
              ParseStringKeyIntended(c, v0, ContractStateKey(c, prefix, id, name, version)) == (true, version)
  {
    var owner := BytesToString(prefix) + BytesToString(id);
    assert ContractStateKey(c, prefix, id, name, version)
        == owner + VersionSeparator + name + VersionSeparator + c.versionString(version);
    SplitThree(owner, name, c.versionString(version), VersionSeparator);
  }

  /** A template key splits on "^*^" into owner, "bytecode" and the version. */
  lemma ContractTemplateKeySplits(e: StoreEnv, templateId: Bytes, version: string)
    requires '^' !in e.p.contractTpl + BytesToString(templateId)
    requires Free(version, VersionSeparator)
    ensures Split(ContractTemplateKey(e, templateId, version), VersionSeparator)
              == [e.p.contractTpl + BytesToString(templateId), "bytecode", version]
  {
    var owner := e.p.contractTpl + BytesToString(templateId);
    assert ContractTemplateKey(e, templateId, version)
        == owner + VersionSeparator + "bytecode" + VersionSeparator + version;
    SplitThree(owner, "bytecode", version, VersionSeparator);
  }

  /** SaveContractState: the value's RLP under the contract-state key. */
  method SaveContractState(db: Database, prefix: Bytes, id: Bytes, name: string, value: Value, version: StateVersion)
    modifies db
    ensures db.kv == old(db.kv)[ContractStateKey(db.env.c, prefix, id, name, version) := db.env.rlpEncode(value)]
  {
    db.StoreBytes(ContractStateKey(db.env.c, prefix, id, name, version), value);
  }

  /** SaveContractTemplate: the raw bytecode under the template key. */
  method SaveContractTemplate(db: Database, templateId: Bytes, bytecode: Bytes, version: string)
    modifies db
    ensures db.kv == old(db.kv)[ContractTemplateKey(db.env, templateId, version) := bytecode]
  {
    db.Put(ContractTemplateKey(db.env, templateId, version), bytecode);
  }

  // ---------------------------------------------------------------------------
  // Joints

  /** A unit with the text saying why it is not signed ("" when it is). */
  datatype Joint = Joint(unit: Unit, unsigned: string)

  /** SaveJoint: an unsigned joint is an error and writes nothing. Otherwise the
      unit's JSON goes under UNIT_PREFIX ++ its hash, and the unit's key text is
      offered to AddUnitKeys, whose error is only logged. */
  method SaveJoint(db: Database, joint: Joint) returns (err: Option<StoreError>)
    modifies db
    ensures joint.unsigned != "" ==> err == Some(UnsignedJoint(joint.unsigned)) && db.kv == old(db.kv)
    ensures joint.unsigned == "" ==> err.None?
    ensures joint.unsigned == "" ==>
              var h := HeaderHash(db.env.c, joint.unit.header);
              db.kv == UnitKeyAdded(db.env,
                         old(db.kv)[db.env.p.unit + BytesToString(h) := db.env.jsonEncode(VUnit(joint.unit))],
                         db.env.p.unit + db.env.c.hashString(h))
  {
    if joint.unsigned != "" {
      return Some(UnsignedJoint(joint.unsigned));
    }
    var h := HeaderHash(db.env.c, joint.unit.header);
    db.Put(db.env.p.unit + BytesToString(h), db.env.jsonEncode(VUnit(joint.unit)));
    var _ := AddUnitKeys(db, db.env.p.unit + db.env.c.hashString(h));
    return None;
  }
}
