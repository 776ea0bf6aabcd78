/** The order line item (Position): keyed by a generated UUID, owned by the
    order that created it. */
module PositionEntity {
  import opened Qt
  import opened UuidGen

  // keys of the map views used by the application
  const UuidKey := "uuid"
  const BezeichnungKey := "bezeichnung"
  const PreisKey := "Preis"

  // keys of the foreign (server) view
  const UuidForeignKey := "uuid"
  const BezeichnungForeignKey := "bezeichnung"
  const PreisForeignKey := "Preis"

  class Position {
    var uuid: string   // domain key, empty while unset
    var bezeichnung: string
    var preis: real    // a double in the source
    var parent: object?  // the QObject parent: the owning order

    /** A default-constructed position has an empty key and so is not valid. */
    constructor ()
      ensures uuid == "" && bezeichnung == "" && preis == 0.0 && parent == null
      ensures !IsValid()
    {
      uuid, bezeichnung, preis, parent := "", "", 0.0, null;
    }

    method SetParent(p: object?)
      modifies this
      ensures parent == p
      ensures uuid == old(uuid) && bezeichnung == old(bezeichnung) && preis == old(preis)
    {
      parent := p;
    }

    predicate IsValid()
      reads this
    {
      uuid != ""
    }

    /** A present, non-empty uuid is kept verbatim; otherwise one is generated. */
    method FillFromMap(m: VariantMap, gen: UuidSource)
      modifies this, gen
      ensures ToStr(Value(m, UuidKey)) != "" ==>
        uuid == ToStr(Value(m, UuidKey)) && gen.issued == old(gen.issued)
      ensures ToStr(Value(m, UuidKey)) == "" ==>
        uuid == StripBraces(gen.raw(old(gen.issued))) && gen.issued == old(gen.issued) + 1
      ensures bezeichnung == ToStr(Value(m, BezeichnungKey)) && preis == ToReal(Value(m, PreisKey))
      ensures parent == old(parent)
      ensures IsValid()
    {
      uuid := ToStr(Value(m, UuidKey));
      if uuid == "" {
        uuid := gen.NewKey();
      }
      bezeichnung := ToStr(Value(m, BezeichnungKey));
      preis := ToReal(Value(m, PreisKey));
    }

    method FillFromForeignMap(m: VariantMap, gen: UuidSource)
      modifies this, gen
      ensures ToStr(Value(m, UuidForeignKey)) != "" ==>
        uuid == ToStr(Value(m, UuidForeignKey)) && gen.issued == old(gen.issued)
      ensures ToStr(Value(m, UuidForeignKey)) == "" ==>
        uuid == StripBraces(gen.raw(old(gen.issued))) && gen.issued == old(gen.issued) + 1
      ensures bezeichnung == ToStr(Value(m, BezeichnungForeignKey))
      ensures preis == ToReal(Value(m, PreisForeignKey))
      ensures parent == old(parent)
      ensures IsValid()
    {
      uuid := ToStr(Value(m, UuidForeignKey));
      if uuid == "" {
        uuid := gen.NewKey();
      }
      bezeichnung := ToStr(Value(m, BezeichnungForeignKey));
      preis := ToReal(Value(m, PreisForeignKey));
    }

    method FillFromCacheMap(m: VariantMap, gen: UuidSource)
      modifies this, gen
      ensures ToStr(Value(m, UuidKey)) != "" ==>
        uuid == ToStr(Value(m, UuidKey)) && gen.issued == old(gen.issued)
      ensures ToStr(Value(m, UuidKey)) == "" ==>
        uuid == StripBraces(gen.raw(old(gen.issued))) && gen.issued == old(gen.issued) + 1
      ensures bezeichnung == ToStr(Value(m, BezeichnungKey)) && preis == ToReal(Value(m, PreisKey))
      ensures parent == old(parent)
      ensures IsValid()
    {
      uuid := ToStr(Value(m, UuidKey));
      if uuid == "" {
        uuid := gen.NewKey();
      }
      bezeichnung := ToStr(Value(m, BezeichnungKey));
      preis := ToReal(Value(m, PreisKey));
    }

    /** Always replaces the key with a freshly generated one. */
    method PrepareNew(gen: UuidSource)
      modifies this, gen
      ensures uuid == StripBraces(gen.raw(old(gen.issued)))
      ensures gen.issued == old(gen.issued) + 1
      ensures bezeichnung == old(bezeichnung) && preis == old(preis) && parent == old(parent)
      ensures IsValid()
    {
      uuid := gen.NewKey();
    }

    /** The full view: exactly uuid, bezeichnung and Preis, from which a fill reads all three back. */
    function ToMap(): (m: VariantMap)
      reads this
      ensures m.Keys == {UuidKey, BezeichnungKey, PreisKey}
      ensures ToStr(Value(m, UuidKey)) == uuid && ToStr(Value(m, BezeichnungKey)) == bezeichnung
      ensures ToReal(Value(m, PreisKey)) == preis
    {
      map[UuidKey := StrV(uuid), BezeichnungKey := StrV(bezeichnung), PreisKey := RealV(preis)]
    }

    function ToForeignMap(): (m: VariantMap)
      reads this
      ensures m.Keys == {UuidForeignKey, BezeichnungForeignKey, PreisForeignKey}
      ensures ToStr(Value(m, UuidForeignKey)) == uuid
      ensures ToStr(Value(m, BezeichnungForeignKey)) == bezeichnung
      ensures ToReal(Value(m, PreisForeignKey)) == preis
    {
      map[UuidForeignKey := StrV(uuid), BezeichnungForeignKey := StrV(bezeichnung),
          PreisForeignKey := RealV(preis)]
    }

    /** There are no transient properties: the cache view is the full view. */
    function ToCacheMap(): (m: VariantMap)
      reads this
      ensures m == ToMap()
    {
      ToMap()
    }
  }

  /** What a fill from m leaves in a position: a present non-empty uuid is
      kept, some key is always present, and the other fields are read from m. */
  predicate FilledFrom(p: Position, m: VariantMap)
    reads p
  {
    && (ToStr(Value(m, UuidKey)) != "" ==> p.uuid == ToStr(Value(m, UuidKey)))
    && p.IsValid()
    && p.bezeichnung == ToStr(Value(m, BezeichnungKey))
    && p.preis == ToReal(Value(m, PreisKey))
  }

  /** A position filled from the full view of another one carries the same
      key, description and price. */
  lemma FillFromMapRestores(src: Position, p: Position)
    requires src.IsValid() && FilledFrom(p, src.ToMap())
    ensures p.uuid == src.uuid && p.bezeichnung == src.bezeichnung && p.preis == src.preis
  {
    var m := src.ToMap();
    assert ToStr(Value(m, UuidKey)) == src.uuid;
  }

  /** Positions filled one by one from the full views of a list of valid
      positions carry the same keys, descriptions and prices, in order. */
  lemma FillFromListRestores(src: seq<Position>, ps: seq<Position>, items: seq<Variant>)
    requires forall p :: p in src ==> p.IsValid()
    requires items == AsVariantList(src) && |ps| == |items|
    requires forall i :: 0 <= i < |ps| ==> FilledFrom(ps[i], Qt.ToMap(items[i]))
    ensures forall i :: 0 <= i < |src| ==>
      ps[i].uuid == src[i].uuid && ps[i].bezeichnung == src[i].bezeichnung && ps[i].preis == src[i].preis
  {
    forall i | 0 <= i < |src|
      ensures ps[i].uuid == src[i].uuid && ps[i].bezeichnung == src[i].bezeichnung && ps[i].preis == src[i].preis
    {
      assert Qt.ToMap(items[i]) == src[i].ToMap();
      FillFromMapRestores(src[i], ps[i]);
    }
  }

  /** The keys of a list of positions, in list order. */
  function Uuids(ps: seq<Position>): (keys: seq<string>)
    reads ps
    ensures |keys| == |ps|
    ensures forall i :: 0 <= i < |ps| ==> keys[i] == ps[i].uuid
  {
    if |ps| == 0 then [] else [ps[0].uuid] + Uuids(ps[1..])
  }

  /** positionenAsQVariantList: the full view of each position, in list order. */
  function AsVariantList(ps: seq<Position>): (l: seq<Variant>)
    reads ps
    ensures |l| == |ps|
    ensures forall i :: 0 <= i < |ps| ==> l[i] == MapV(ps[i].ToMap())
  {
    if |ps| == 0 then [] else [MapV(ps[0].ToMap())] + AsVariantList(ps[1..])
  }
}
