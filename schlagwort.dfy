/** The keyword entity (Schlagwort): a read-only reference dataset keyed by a
    generated UUID. */
module SchlagwortEntity {
  import opened Qt
  import opened UuidGen

  // keys of the map views used by the application
  const UuidKey := "uuid"
  const TextKey := "text"

  // keys of the foreign (server) view
  const UuidForeignKey := "uuid"
  const TextForeignKey := "text"

  class Schlagwort {
    var uuid: string   // domain key, empty while unset
    var text: string

    /** A default-constructed keyword has an empty key and so is not valid. */
    constructor ()
      ensures uuid == "" && text == ""
      ensures !IsValid()
    {
      uuid, text := "", "";
    }

    predicate IsValid()
      reads this
    {
      uuid != ""
    }

    /** A present, non-empty uuid is kept verbatim; otherwise one is generated. */
    method FillFromMap(m: VariantMap, gen: UuidSource)
      modifies this, gen
      ensures ToStr(Value(m, UuidKey)) != "" ==>
        uuid == ToStr(Value(m, UuidKey)) && gen.issued == old(gen.issued)
      ensures ToStr(Value(m, UuidKey)) == "" ==>
        uuid == StripBraces(gen.raw(old(gen.issued))) && gen.issued == old(gen.issued) + 1
      ensures text == ToStr(Value(m, TextKey))
      ensures IsValid()
    {
      uuid := ToStr(Value(m, UuidKey));
      if uuid == "" {
        uuid := gen.NewKey();
      }
      text := ToStr(Value(m, TextKey));
    }

    method FillFromForeignMap(m: VariantMap, gen: UuidSource)
      modifies this, gen
      ensures ToStr(Value(m, UuidForeignKey)) != "" ==>
        uuid == ToStr(Value(m, UuidForeignKey)) && gen.issued == old(gen.issued)
      ensures ToStr(Value(m, UuidForeignKey)) == "" ==>
        uuid == StripBraces(gen.raw(old(gen.issued))) && gen.issued == old(gen.issued) + 1
      ensures text == ToStr(Value(m, TextForeignKey))
      ensures IsValid()
    {
      uuid := ToStr(Value(m, UuidForeignKey));
      if uuid == "" {
        uuid := gen.NewKey();
      }
      text := ToStr(Value(m, TextForeignKey));
    }

    method FillFromCacheMap(m: VariantMap, gen: UuidSource)
      modifies this, gen
      ensures ToStr(Value(m, UuidKey)) != "" ==>
        uuid == ToStr(Value(m, UuidKey)) && gen.issued == old(gen.issued)
      ensures ToStr(Value(m, UuidKey)) == "" ==>
        uuid == StripBraces(gen.raw(old(gen.issued))) && gen.issued == old(gen.issued) + 1
      ensures text == ToStr(Value(m, TextKey))
      ensures IsValid()
    {
      uuid := ToStr(Value(m, UuidKey));
      if uuid == "" {
        uuid := gen.NewKey();
      }
      text := ToStr(Value(m, TextKey));
    }

    /** Always replaces the key with a freshly generated one. */
    method PrepareNew(gen: UuidSource)
      modifies this, gen
      ensures uuid == StripBraces(gen.raw(old(gen.issued)))
      ensures gen.issued == old(gen.issued) + 1
      ensures text == old(text)
      ensures IsValid()
    {
      uuid := gen.NewKey();
    }

    /** The full view: exactly the keys uuid and text, from which a fill reads both fields back. */
    function ToMap(): (m: VariantMap)
      reads this
      ensures m.Keys == {UuidKey, TextKey}
      ensures ToStr(Value(m, UuidKey)) == uuid && ToStr(Value(m, TextKey)) == text
    {
      map[UuidKey := StrV(uuid), TextKey := StrV(text)]
    }

    function ToForeignMap(): (m: VariantMap)
      reads this
      ensures m.Keys == {UuidForeignKey, TextForeignKey}
      ensures ToStr(Value(m, UuidForeignKey)) == uuid && ToStr(Value(m, TextForeignKey)) == text
    {
      map[UuidForeignKey := StrV(uuid), TextForeignKey := StrV(text)]
    }

    /** There are no transient properties: the cache view is the full view. */
    function ToCacheMap(): (m: VariantMap)
      reads this
      ensures m == ToMap()
    {
      ToMap()
    }
  }

  /** What any fill from m leaves in s: a present, non-empty key kept, and
      a key in every case. */
  predicate FilledFrom(s: Schlagwort, m: VariantMap)
    reads s
  {
    && (ToStr(Value(m, UuidKey)) != "" ==> s.uuid == ToStr(Value(m, UuidKey)))
    && s.IsValid()
    && s.text == ToStr(Value(m, TextKey))
  }

  /** A keyword filled from the cache view of a valid keyword carries the same key and text. */
  lemma CacheRoundTrip(src: Schlagwort, s: Schlagwort)
    requires src.IsValid() && FilledFrom(s, src.ToCacheMap())
    ensures s.uuid == src.uuid && s.text == src.text
  {
    var m := src.ToCacheMap();
    assert ToStr(Value(m, UuidKey)) == src.uuid;
  }

  /** The keys of a keyword collection, in collection order. */
  function Uuids(s: seq<Schlagwort>): (keys: seq<string>)
    reads s
    ensures |keys| == |s|
    ensures forall i :: 0 <= i < |s| ==> keys[i] == s[i].uuid
  {
    if |s| == 0 then [] else [s[0].uuid] + Uuids(s[1..])
  }
}
