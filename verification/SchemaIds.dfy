/** Removing inert `$id` keywords from a JSON Schema changes no reference's resolution base
    (sections 8.2.1 and 8.2.3 of JSON Schema Core 2020-12) and touches no data. */
module SchemaIds {
  import opened Sums

  datatype Json = Atom(text: string) | Str(value: string) | Arr(items: Items) | Obj(fields: Fields)

  datatype Items = Nil | Cons(head: Json, tail: Items)

  datatype Fields = NoFields | Field(key: string, value: Json, rest: Fields)

  const REFERENCES: set<string> := {"$ref", "$dynamicRef", "$recursiveRef"}

  const SUBSCHEMAS: set<string> := {
    "items", "additionalItems", "additionalProperties", "unevaluatedItems", "unevaluatedProperties",
    "not", "if", "then", "else", "contains", "propertyNames", "contentSchema"
  }

  const SCHEMA_LISTS: set<string> := {"allOf", "anyOf", "oneOf", "prefixItems", "items"}

  const SCHEMA_MAPS: set<string> :=
    {"properties", "patternProperties", "$defs", "definitions", "dependentSchemas", "dependencies"}

  const DEEPEST: nat := 48

  predicate HasReference(item: Json)
    decreases item, 0
  {
    match item
    case Obj(fields) => FieldsHaveReference(fields)
    case Arr(items) => ItemsHaveReference(items)
    case _ => false
  }

  predicate FieldsHaveReference(fields: Fields)
    decreases fields
  {
    fields.Field? && (fields.key in REFERENCES || HasReference(fields.value) || FieldsHaveReference(fields.rest))
  }

  predicate ItemsHaveReference(items: Items)
    decreases items
  {
    items.Cons? && (HasReference(items.head) || ItemsHaveReference(items.tail))
  }

  function Get(fields: Fields, key: string): Option<Json>
    decreases fields
  {
    if fields.NoFields? then None else if fields.key == key then Some(fields.value) else Get(fields.rest, key)
  }

  /** The identity an object declares. */
  function IdOf(fields: Fields): Option<string> {
    var id := Get(fields, "$id");
    if id.Some? && id.value.Str? then Some(id.value.value) else None
  }

  predicate Inert(fields: Fields) {
    IdOf(fields).Some? && !FieldsHaveReference(fields)
  }

  predicate Extension(key: string) {
    |key| >= 2 && key[0] == 'x' && key[1] == '-'
  }

  function DropInertIds(item: Json, depth: nat): Json
    decreases item, 0
  {
    if depth > DEEPEST || !item.Obj? then item
    else Obj(DropFields(item.fields, Inert(item.fields), depth))
  }

  function DropFields(fields: Fields, inert: bool, depth: nat): Fields
    decreases fields
  {
    if fields.NoFields? then NoFields
    else if inert && fields.key == "$id" then DropFields(fields.rest, inert, depth)
    else Field(fields.key, DropValue(fields.key, fields.value, depth), DropFields(fields.rest, inert, depth))
  }

  /** Only schema positions are visited; every other value is data and is copied. */
  function DropValue(key: string, value: Json, depth: nat): Json
    decreases value, 1
  {
    if key in SCHEMA_MAPS && value.Obj? then Obj(DropMap(value.fields, depth + 1))
    else if key in SCHEMA_LISTS && value.Arr? then Arr(DropItems(value.items, depth + 1))
    else if key in SUBSCHEMAS || Extension(key) then DropInertIds(value, depth + 1)
    else value
  }

  function DropMap(fields: Fields, depth: nat): Fields
    decreases fields
  {
    if fields.NoFields? then NoFields
    else Field(fields.key, DropInertIds(fields.value, depth), DropMap(fields.rest, depth))
  }

  function DropItems(items: Items, depth: nat): Items
    decreases items
  {
    if items.Nil? then Nil else Cons(DropInertIds(items.head, depth), DropItems(items.tail, depth))
  }

  /** Identities and references are data to the pass. */
  lemma KeywordsAreData(key: string, value: Json, depth: nat)
    requires key in REFERENCES || key == "$id"
    ensures DropValue(key, value, depth) == value
  {
    assert key[0] == '$';
  }

  // ---------------------------------------------------------------- references stay

  lemma {:induction false} ReferencesStay(item: Json, depth: nat)
    ensures HasReference(DropInertIds(item, depth)) == HasReference(item)
    decreases item, 0
  {
    if depth <= DEEPEST && item.Obj? {
      FieldReferencesStay(item.fields, Inert(item.fields), depth);
    }
  }

  lemma {:induction false} FieldReferencesStay(fields: Fields, inert: bool, depth: nat)
    requires inert ==> !FieldsHaveReference(fields)
    ensures FieldsHaveReference(DropFields(fields, inert, depth)) == FieldsHaveReference(fields)
    decreases fields
  {
    if fields.Field? {
      FieldReferencesStay(fields.rest, inert, depth);
      ValueReferencesStay(fields.key, fields.value, depth);
    }
  }

  lemma {:induction false} ValueReferencesStay(key: string, value: Json, depth: nat)
    ensures HasReference(DropValue(key, value, depth)) == HasReference(value)
    decreases value, 1
  {
    if key in SCHEMA_MAPS && value.Obj? {
      MapReferencesStay(value.fields, depth + 1);
    } else if key in SCHEMA_LISTS && value.Arr? {
      ItemReferencesStay(value.items, depth + 1);
    } else {
      ReferencesStay(value, depth + 1);
    }
  }

  lemma {:induction false} MapReferencesStay(fields: Fields, depth: nat)
    ensures FieldsHaveReference(DropMap(fields, depth)) == FieldsHaveReference(fields)
    decreases fields
  {
    if fields.Field? {
      ReferencesStay(fields.value, depth);
      MapReferencesStay(fields.rest, depth);
    }
  }

  lemma {:induction false} ItemReferencesStay(items: Items, depth: nat)
    ensures ItemsHaveReference(DropItems(items, depth)) == ItemsHaveReference(items)
    decreases items
  {
    if items.Cons? {
      ReferencesStay(items.head, depth);
      ItemReferencesStay(items.tail, depth);
    }
  }

  // ---------------------------------------------------------------- and resolve as before

  datatype Step = Key(name: string) | Index(position: nat)

  type Path = seq<Step>

  /** An identity in scope, with the place of the object that declares it. */
  datatype Scope = Scope(at: Path, id: string)

  /** One reference: where it is, its keyword and target, and every identity around it, outermost
      first. Any rule that picks a base from the identities around a reference reads only this. */
  datatype Site = Site(at: Path, target: Json, scopes: seq<Scope>)

  function Sites(item: Json, at: Path, scopes: seq<Scope>): seq<Site>
    decreases item, 0
  {
    match item
    case Obj(fields) =>
      var id := IdOf(fields);
      FieldSites(fields, at, if id.Some? then scopes + [Scope(at, id.value)] else scopes)
    case Arr(items) => ItemSites(items, at, 0, scopes)
    case _ => []
  }

  function FieldSites(fields: Fields, at: Path, scopes: seq<Scope>): seq<Site>
    decreases fields
  {
    if fields.NoFields? then []
    else (if fields.key in REFERENCES then [Site(at + [Key(fields.key)], fields.value, scopes)] else [])
         + ValueSites(fields.key, fields.value, at + [Key(fields.key)], scopes) + FieldSites(fields.rest, at, scopes)
  }

  /** The names in a map of subschemas are not keywords: they neither refer nor identify. */
  function ValueSites(key: string, value: Json, at: Path, scopes: seq<Scope>): seq<Site>
    decreases value, 1
  {
    if key in SCHEMA_MAPS && value.Obj? then MapSites(value.fields, at, scopes) else Sites(value, at, scopes)
  }

  function MapSites(fields: Fields, at: Path, scopes: seq<Scope>): seq<Site>
    decreases fields
  {
    if fields.NoFields? then []
    else Sites(fields.value, at + [Key(fields.key)], scopes) + MapSites(fields.rest, at, scopes)
  }

  function ItemSites(items: Items, at: Path, position: nat, scopes: seq<Scope>): seq<Site>
    decreases items
  {
    if items.Nil? then []
    else Sites(items.head, at + [Index(position)], scopes) + ItemSites(items.tail, at, position + 1, scopes)
  }

  /** The whole list of references, each with its place, target and scopes, is the same before
      and after. */
  lemma {:induction false} ResolutionUnchanged(item: Json, depth: nat, at: Path, scopes: seq<Scope>)
    ensures Sites(DropInertIds(item, depth), at, scopes) == Sites(item, at, scopes)
    decreases item, 0
  {
    if depth <= DEEPEST && item.Obj? {
      if Inert(item.fields) {
        FieldReferencesStay(item.fields, true, depth);
        NoReferenceNoSite(item, at, scopes);
        NoReferenceNoSite(DropInertIds(item, depth), at, scopes);
      } else {
        IdsKept(item.fields, depth);
        var id := IdOf(item.fields);
        FieldsResolve(item.fields, depth, at, if id.Some? then scopes + [Scope(at, id.value)] else scopes);
      }
    }
  }

  lemma {:induction false} NoReferenceNoSite(item: Json, at: Path, scopes: seq<Scope>)
    requires !HasReference(item)
    ensures Sites(item, at, scopes) == []
    decreases item, 0
  {
    match item
    case Obj(fields) =>
      var id := IdOf(fields);
      NoReferenceNoFieldSite(fields, at, if id.Some? then scopes + [Scope(at, id.value)] else scopes);
    case Arr(items) => NoReferenceNoItemSite(items, at, 0, scopes);
    case _ =>
  }

  lemma {:induction false} NoReferenceNoFieldSite(fields: Fields, at: Path, scopes: seq<Scope>)
    requires !FieldsHaveReference(fields)
    ensures FieldSites(fields, at, scopes) == [] && MapSites(fields, at, scopes) == []
    decreases fields
  {
    if fields.Field? {
      NoReferenceNoSite(fields.value, at + [Key(fields.key)], scopes);
      if fields.value.Obj? {
        NoReferenceNoFieldSite(fields.value.fields, at + [Key(fields.key)], scopes);
      }
      NoReferenceNoFieldSite(fields.rest, at, scopes);
    }
  }

  lemma {:induction false} NoReferenceNoItemSite(items: Items, at: Path, position: nat, scopes: seq<Scope>)
    requires !ItemsHaveReference(items)
    ensures ItemSites(items, at, position, scopes) == []
    decreases items
  {
    if items.Cons? {
      NoReferenceNoSite(items.head, at + [Index(position)], scopes);
      NoReferenceNoItemSite(items.tail, at, position + 1, scopes);
    }
  }

  /** An object that is not inert keeps its identity. */
  lemma {:induction false} IdsKept(fields: Fields, depth: nat)
    ensures IdOf(DropFields(fields, false, depth)) == IdOf(fields)
    decreases fields
  {
    if fields.Field? {
      if fields.key == "$id" {
        KeywordsAreData("$id", fields.value, depth);
      } else {
        IdsKept(fields.rest, depth);
      }
    }
  }

  lemma {:induction false} FieldsResolve(fields: Fields, depth: nat, at: Path, scopes: seq<Scope>)
    ensures FieldSites(DropFields(fields, false, depth), at, scopes) == FieldSites(fields, at, scopes)
    decreases fields
  {
    if fields.Field? {
      ValueResolves(fields.key, fields.value, depth, at + [Key(fields.key)], scopes);
      FieldsResolve(fields.rest, depth, at, scopes);
    }
  }

  lemma {:induction false} ValueResolves(key: string, value: Json, depth: nat, at: Path, scopes: seq<Scope>)
    ensures ValueSites(key, DropValue(key, value, depth), at, scopes) == ValueSites(key, value, at, scopes)
    ensures key in REFERENCES ==> DropValue(key, value, depth) == value
    decreases value, 1
  {
    if key in REFERENCES {
      KeywordsAreData(key, value, depth);
    }
    if key in SCHEMA_MAPS && value.Obj? {
      MapResolves(value.fields, depth + 1, at, scopes);
    } else if key in SCHEMA_LISTS && value.Arr? {
      ItemsResolve(value.items, depth + 1, at, 0, scopes);
    } else {
      ResolutionUnchanged(value, depth + 1, at, scopes);
    }
  }

  lemma {:induction false} MapResolves(fields: Fields, depth: nat, at: Path, scopes: seq<Scope>)
    ensures MapSites(DropMap(fields, depth), at, scopes) == MapSites(fields, at, scopes)
    decreases fields
  {
    if fields.Field? {
      ResolutionUnchanged(fields.value, depth, at + [Key(fields.key)], scopes);
      MapResolves(fields.rest, depth, at, scopes);
    }
  }

  lemma {:induction false} ItemsResolve(items: Items, depth: nat, at: Path, position: nat, scopes: seq<Scope>)
    ensures ItemSites(DropItems(items, depth), at, position, scopes) == ItemSites(items, at, position, scopes)
    decreases items
  {
    if items.Cons? {
      ResolutionUnchanged(items.head, depth, at + [Index(position)], scopes);
      ItemsResolve(items.tail, depth, at, position + 1, scopes);
    }
  }

  // ---------------------------------------------------------------- nothing else changes

  function At(items: Items, position: nat): Option<Json>
    decreases items
  {
    if items.Nil? then None else if position == 0 then Some(items.head) else At(items.tail, position - 1)
  }

  function Child(item: Json, step: Step): Option<Json> {
    match step
    case Key(name) => if item.Obj? then Get(item.fields, name) else None
    case Index(position) => if item.Arr? then At(item.items, position) else None
  }

  function Lookup(item: Json, path: Path): Option<Json>
    decreases |path|
  {
    if path == [] then Some(item)
    else
      var child := Child(item, path[0]);
      if child.None? then None else Lookup(child.value, path[1..])
  }

  /** Two values that differ at most below, or in identities dropped from this very object. */
  predicate SameShape(item: Json, item': Json) {
    && item.Obj? == item'.Obj? && item.Arr? == item'.Arr?
    && (!item.Obj? && !item.Arr? ==> item' == item)
  }

  lemma {:induction false} FieldKept(fields: Fields, inert: bool, depth: nat, name: string)
    ensures var was, now := Get(fields, name), Get(DropFields(fields, inert, depth), name);
            && (inert && name == "$id" ==> now.None?)
            && (!(inert && name == "$id")
               ==> now.Some? == was.Some? && (was.Some? ==> now.value == DropValue(name, was.value, depth)))
    decreases fields
  {
    if fields.Field? {
      FieldKept(fields.rest, inert, depth, name);
    }
  }

  lemma {:induction false} NameKept(fields: Fields, depth: nat, name: string)
    ensures var was, now := Get(fields, name), Get(DropMap(fields, depth), name);
            now.Some? == was.Some? && (was.Some? ==> now.value == DropInertIds(was.value, depth))
    decreases fields
  {
    if fields.Field? {
      NameKept(fields.rest, depth, name);
    }
  }

  lemma {:induction false} ItemKept(items: Items, depth: nat, position: nat)
    ensures var was, now := At(items, position), At(DropItems(items, depth), position);
            now.Some? == was.Some? && (was.Some? ==> now.value == DropInertIds(was.value, depth))
    decreases items
  {
    if items.Cons? && position > 0 {
      ItemKept(items.tail, depth, position - 1);
    }
  }

  /** A place holds an inert identity: the string `$id` of an object without references. */
  predicate InertPlace(item: Json, path: Path) {
    && |path| > 0 && path[|path| - 1] == Key("$id")
    && Lookup(item, path[..|path| - 1]).Some?
    && var owner := Lookup(item, path[..|path| - 1]).value; owner.Obj? && Inert(owner.fields)
  }

  lemma InertPlaceBelow(item: Json, path: Path)
    requires path != [] && Child(item, path[0]).Some? && InertPlace(Child(item, path[0]).value, path[1..])
    ensures InertPlace(item, path)
  {
    assert path[1..][..|path[1..]| - 1] == path[..|path| - 1][1..];
  }

  lemma IdentityIsLeaf(item: Json, path: Path)
    requires item.Obj? && Inert(item.fields) && path != [] && path[0] == Key("$id") && Lookup(item, path).Some?
    ensures InertPlace(item, path)
  {
    assert |path| == 1;
    assert path[..0] == [];
  }

  /** What a place holds after: something of the same shape, or nothing if it held an inert identity. */
  predicate Stays(item: Json, item': Json, path: Path) {
    var was, now := Lookup(item, path), Lookup(item', path);
    if was.None? then now.None?
    else (now.Some? && SameShape(was.value, now.value)) || (now.None? && InertPlace(item, path))
  }

  lemma StaysBelow(item: Json, item': Json, path: Path)
    requires path != [] && Child(item, path[0]).Some? == Child(item', path[0]).Some?
    requires Child(item, path[0]).Some? ==> Stays(Child(item, path[0]).value, Child(item', path[0]).value, path[1..])
    ensures Stays(item, item', path)
  {
    if Child(item, path[0]).Some? && InertPlace(Child(item, path[0]).value, path[1..]) {
      InertPlaceBelow(item, path);
    }
  }

  /** Every place but an inert identity still holds what it held: a value of the same shape, and
      the same value where it is a leaf. Nothing appears where there was nothing. */
  lemma {:induction false} EverythingElseStays(item: Json, depth: nat, path: Path)
    ensures Stays(item, DropInertIds(item, depth), path)
    decreases |path|, 0
  {
    if depth <= DEEPEST && item.Obj? && path != [] && path[0].Key? {
      var name := path[0].name;
      var was := Get(item.fields, name);
      FieldKept(item.fields, Inert(item.fields), depth, name);
      if Inert(item.fields) && name == "$id" {
        if Lookup(item, path).Some? {
          IdentityIsLeaf(item, path);
        }
      } else {
        if was.Some? {
          ValueStays(name, was.value, depth, path[1..]);
        }
        StaysBelow(item, DropInertIds(item, depth), path);
      }
    }
  }

  lemma {:induction false} ValueStays(key: string, value: Json, depth: nat, path: Path)
    ensures Stays(value, DropValue(key, value, depth), path)
    decreases |path|, 1
  {
    if key in SCHEMA_MAPS && value.Obj? {
      if path != [] && path[0].Key? {
        NameKept(value.fields, depth + 1, path[0].name);
        if Get(value.fields, path[0].name).Some? {
          EverythingElseStays(Get(value.fields, path[0].name).value, depth + 1, path[1..]);
        }
        StaysBelow(value, DropValue(key, value, depth), path);
      }
    } else if key in SCHEMA_LISTS && value.Arr? {
      if path != [] && path[0].Index? {
        ItemKept(value.items, depth + 1, path[0].position);
        if At(value.items, path[0].position).Some? {
          EverythingElseStays(At(value.items, path[0].position).value, depth + 1, path[1..]);
        }
        StaysBelow(value, DropValue(key, value, depth), path);
      }
    } else {
      EverythingElseStays(value, depth + 1, path);
    }
  }

  // ---------------------------------------------------------------- once is enough

  lemma {:induction false} DropIsIdempotent(item: Json, depth: nat)
    ensures DropInertIds(DropInertIds(item, depth), depth) == DropInertIds(item, depth)
    decreases item, 0
  {
    if depth <= DEEPEST && item.Obj? {
      var inert := Inert(item.fields);
      NothingLeftInert(item.fields, depth);
      FieldsIdempotent(item.fields, inert, depth);
    }
  }

  /** An object that has been visited is not inert: its identity is gone, or scopes a reference. */
  lemma NothingLeftInert(fields: Fields, depth: nat)
    ensures !Inert(DropFields(fields, Inert(fields), depth))
  {
    FieldReferencesStay(fields, Inert(fields), depth);
    if Inert(fields) {
      FieldKept(fields, true, depth, "$id");
    } else {
      IdsKept(fields, depth);
    }
  }

  lemma {:induction false} FieldsIdempotent(fields: Fields, inert: bool, depth: nat)
    ensures DropFields(DropFields(fields, inert, depth), false, depth) == DropFields(fields, inert, depth)
    decreases fields
  {
    if fields.Field? {
      FieldsIdempotent(fields.rest, inert, depth);
      ValueIdempotent(fields.key, fields.value, depth);
    }
  }

  lemma {:induction false} ValueIdempotent(key: string, value: Json, depth: nat)
    ensures DropValue(key, DropValue(key, value, depth), depth) == DropValue(key, value, depth)
    decreases value, 1
  {
    if key in SCHEMA_MAPS && value.Obj? {
      MapIdempotent(value.fields, depth + 1);
    } else if key in SCHEMA_LISTS && value.Arr? {
      ItemsIdempotent(value.items, depth + 1);
    } else {
      DropIsIdempotent(value, depth + 1);
    }
  }

  lemma {:induction false} MapIdempotent(fields: Fields, depth: nat)
    ensures DropMap(DropMap(fields, depth), depth) == DropMap(fields, depth)
    decreases fields
  {
    if fields.Field? {
      DropIsIdempotent(fields.value, depth);
      MapIdempotent(fields.rest, depth);
    }
  }

  lemma {:induction false} ItemsIdempotent(items: Items, depth: nat)
    ensures DropItems(DropItems(items, depth), depth) == DropItems(items, depth)
    decreases items
  {
    if items.Cons? {
      DropIsIdempotent(items.head, depth);
      ItemsIdempotent(items.tail, depth);
    }
  }

  /** After the pass, an identity the advertised schema still declares scopes a reference. */
  lemma KeptIdScopesReference(item: Json)
    requires item.Obj? && IdOf(DropInertIds(item, 0).fields).Some?
    ensures HasReference(item) && IdOf(item.fields) == IdOf(DropInertIds(item, 0).fields)
  {
    NothingLeftInert(item.fields, 0);
    ReferencesStay(item, 0);
    IdsKept(item.fields, 0);
  }
}
