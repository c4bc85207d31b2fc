/**
  The HSMP snapshot format: a four-byte mark, a two-byte big-endian schema version and a
  packed document. The packing of documents is a parameter.
 */
module Snapshots {
  import opened Wrappers
  import opened Sequences
  import opened Values

  type Byte = b: int | 0 <= b < 256

  const MAGIC: seq<Byte> := [0x48, 0x53, 0x4D, 0x50]
  const HEADER_SIZE: nat := 6

  datatype Schema = Schema(version: int, fields: seq<string>) {
    function Names(): set<string> {
      Elements(fields)
    }
  }

  /** The schema filed under each operator class and version number. */
  type Registry = map<(string, int), Schema>

  datatype SnapshotError =
    | SchemaNotFound | Unpackable | VersionOutOfRange
    | TooShort | BadMagic | EmptyPayload | BadPayload | NotADictionary | NoOperatorClass

  datatype Unpacked = Garbage | NotMapping | Document(doc: Fields)

  /** Packing may refuse a document; unpacking is defined on every byte string. */
  datatype Codec = Codec(pack: Fields -> Option<seq<Byte>>, unpack: seq<Byte> -> Unpacked) {

    /** What is packed is not empty and unpacks to itself. */
    ghost predicate Lawful() {
      forall d {:trigger pack(d)} :: pack(d).Some? ==> pack(d).value != [] && unpack(pack(d).value) == Document(d)
    }
  }

  /** The document of a state: each schema field, and the two header entries unless a field has their name. */
  function DocumentOf(class_: string, schema: Schema, state: Fields): Fields {
    map["schema_version" := Whole(schema.version), "operator_class" := Text(class_)]
      + Projected(state, schema.Names())
  }

  function BigEndian(high: int, low: int): int {
    high * 0x100 + low
  }

  function VersionBytes(version: int): seq<Byte>
    requires 0 <= version < 0x1_0000
  {
    [version / 0x100, version % 0x100]
  }

  /** What `serialize` returns or raises. */
  function Serialized(class_: string, state: Fields, registry: Registry, codec: Codec)
    : Result<seq<Byte>, SnapshotError>
  {
    if (class_, 1) !in registry then Failure(SchemaNotFound)
    else
      var schema := registry[(class_, 1)];
      var payload := codec.pack(DocumentOf(class_, schema, state));
      if payload.None? then Failure(Unpackable)
      else if !(0 <= schema.version < 0x1_0000) then Failure(VersionOutOfRange)
      else Success(MAGIC + VersionBytes(schema.version) + payload.value)
  }

  lemma DocumentGrows(class_: string, schema: Schema, n: nat, state: Fields)
    requires n < |schema.fields|
    ensures DocumentOf(class_, Schema(schema.version, schema.fields[..n + 1]), state)
         == DocumentOf(class_, Schema(schema.version, schema.fields[..n]), state)
              [schema.fields[n] := Get(state, schema.fields[n], Null)]
  {
    assert Elements(schema.fields[..n + 1]) == Elements(schema.fields[..n]) + {schema.fields[n]};
  }

  method Serialize(class_: string, state: Fields, registry: Registry, codec: Codec)
    returns (data: Result<seq<Byte>, SnapshotError>)
    ensures data == Serialized(class_, state, registry, codec)
  {
    if (class_, 1) !in registry {
      return Failure(SchemaNotFound);
    }
    var schema := registry[(class_, 1)];
    var doc: Fields := map["schema_version" := Whole(schema.version), "operator_class" := Text(class_)];
    for n := 0 to |schema.fields|
      invariant doc == DocumentOf(class_, Schema(schema.version, schema.fields[..n]), state)
    {
      doc := doc[schema.fields[n] := Get(state, schema.fields[n], Null)];
      DocumentGrows(class_, schema, n, state);
    }
    assert schema.fields[..|schema.fields|] == schema.fields;
    var payload := codec.pack(doc);
    if payload.None? {
      return Failure(Unpackable);
    }
    if !(0 <= schema.version < 0x1_0000) {
      return Failure(VersionOutOfRange);
    }
    data := Success(MAGIC + [schema.version / 0x100, schema.version % 0x100] + payload.value);
  }

  /** Values that Python takes for false. */
  predicate Falsy(v: Value) {
    match v
    case Null => true
    case Flag(b) => !b
    case Whole(n) => n == 0
    case Decimal(x) => x == 0.0
    case Text(s) => s == ""
    case Listed(xs) => xs == []
    case Mapped(es) => es == []
  }

  function VersionIn(data: seq<Byte>): int
    requires |data| >= HEADER_SIZE
  {
    BigEndian(data[4], data[5])
  }

  /** `deserialize`. */
  function Deserialized(data: seq<Byte>, registry: Registry, codec: Codec): Result<Fields, SnapshotError> {
    if |data| < HEADER_SIZE then Failure(TooShort)
    else if data[..4] != MAGIC then Failure(BadMagic)
    else if data[HEADER_SIZE..] == [] then Failure(EmptyPayload)
    else
      match codec.unpack(data[HEADER_SIZE..])
      case Garbage => Failure(BadPayload)
      case NotMapping => Failure(NotADictionary)
      case Document(doc) =>
        var named := Get(doc, "operator_class", Null);
        if Falsy(named) then Failure(NoOperatorClass)
        else if !named.Text? || (named.text, VersionIn(data)) !in registry then Failure(SchemaNotFound)
        else Success(Projected(doc, registry[(named.text, VersionIn(data))].Names()))
  }

  // ---- what is written and what is read, byte by byte ----

  /** The document holds each schema field, null where the state has none, and the header entries no field shadows. */
  ghost predicate Documents(doc: Fields, class_: string, version: int, fields: set<string>, state: Fields) {
    && doc.Keys == fields + {"schema_version", "operator_class"}
    && (forall f :: f in fields ==> doc[f] == if f in state then state[f] else Null)
    && ("schema_version" !in fields ==> doc["schema_version"] == Whole(version))
    && ("operator_class" !in fields ==> doc["operator_class"] == Text(class_))
  }

  /**
    What is written: the letters HSMP, the version in two bytes with the high one first, and the
    packed document.
   */
  lemma WrittenLayout(class_: string, state: Fields, registry: Registry, codec: Codec)
    requires Serialized(class_, state, registry, codec).Success?
    ensures var data, schema := Serialized(class_, state, registry, codec).value, registry[(class_, 1)];
            && |data| >= 6
            && data[..4] == ['H' as int, 'S' as int, 'M' as int, 'P' as int]
            && data[4] == schema.version / 256 && data[5] == schema.version % 256
            && exists doc :: Documents(doc, class_, schema.version, schema.Names(), state)
                             && codec.pack(doc) == Some(data[6..])
  {
    var schema := registry[(class_, 1)];
    var doc := DocumentOf(class_, schema, state);
    HeaderParts(schema.version, codec.pack(doc).value);
    assert Documents(doc, class_, schema.version, schema.Names(), state);
  }

  /** The version in bytes four and five. */
  function VersionAt(data: seq<Byte>): int
    requires |data| > 5
  {
    var high: int, low: int := data[4], data[5];
    high * 256 + low
  }

  /** The bytes unpack to this document, and the class it names has a schema at the version they carry. */
  ghost predicate Intact(data: seq<Byte>, registry: Registry, codec: Codec, doc: Fields, class_: string) {
    && |data| > 6
    && data[..4] == ['H' as int, 'S' as int, 'M' as int, 'P' as int]
    && codec.unpack(data[6..]) == Document(doc)
    && "operator_class" in doc && doc["operator_class"] == Text(class_) && class_ != ""
    && (class_, VersionAt(data)) in registry
  }

  /** The named fields of a document, null where it has none. */
  function FieldsOf(doc: Fields, fields: seq<string>): Fields {
    map f | f in fields :: if f in doc then doc[f] else Null
  }

  lemma FieldsOfAre(doc: Fields, schema: Schema)
    ensures FieldsOf(doc, schema.fields) == Projected(doc, schema.Names())
  {
  }

  lemma IntactReads(data: seq<Byte>, registry: Registry, codec: Codec, doc: Fields, class_: string)
    requires Intact(data, registry, codec, doc, class_)
    ensures Deserialized(data, registry, codec)
         == Success(FieldsOf(doc, registry[(class_, VersionAt(data))].fields))
  {
    assert data[6..] != [];
    assert VersionIn(data) == VersionAt(data);
    FieldsOfAre(doc, registry[(class_, VersionAt(data))]);
  }

  /** What is read: exactly such bytes, and then the fields of that schema, null where the document has none. */
  lemma ReadIff(data: seq<Byte>, registry: Registry, codec: Codec)
    ensures Deserialized(data, registry, codec).Success? <==>
              exists doc, class_ :: Intact(data, registry, codec, doc, class_)
    ensures forall doc, class_ :: Intact(data, registry, codec, doc, class_) ==>
              Deserialized(data, registry, codec)
                == Success(FieldsOf(doc, registry[(class_, VersionAt(data))].fields))
  {
    forall doc, class_ | Intact(data, registry, codec, doc, class_)
      ensures Deserialized(data, registry, codec)
           == Success(FieldsOf(doc, registry[(class_, VersionAt(data))].fields))
    {
      IntactReads(data, registry, codec, doc, class_);
    }
    if Deserialized(data, registry, codec).Success? {
      var doc := codec.unpack(data[6..]).doc;
      assert Intact(data, registry, codec, doc, doc["operator_class"].text);
    }
  }

  // ---- the round trip ----

  /** What a reader of a serialized snapshot finds as its operator class. */
  function ClassNamed(class_: string, schema: Schema, state: Fields): Value {
    if "operator_class" in schema.Names() then Get(state, "operator_class", Null) else Text(class_)
  }

  /** The class that is found leads, at the written version, to a schema with the fields that were written. */
  predicate LeadsBack(class_: string, state: Fields, registry: Registry)
    requires (class_, 1) in registry
  {
    var schema := registry[(class_, 1)];
    var named := ClassNamed(class_, schema, state);
    && named.Text? && named.text != ""
    && (named.text, schema.version) in registry
    && registry[(named.text, schema.version)].Names() == schema.Names()
  }

  lemma HeaderParts(version: int, payload: seq<Byte>)
    requires 0 <= version < 0x1_0000
    ensures var data := MAGIC + VersionBytes(version) + payload;
            && |data| >= HEADER_SIZE
            && data[..4] == MAGIC
            && data[HEADER_SIZE..] == payload
            && VersionIn(data) == version
  {
  }

  lemma DocumentProjects(class_: string, schema: Schema, state: Fields)
    ensures Projected(DocumentOf(class_, schema, state), schema.Names()) == Projected(state, schema.Names())
    ensures Get(DocumentOf(class_, schema, state), "operator_class", Null) == ClassNamed(class_, schema, state)
  {
  }

  /** The class named in the document decides the schema by which it is read. */
  function ReadBack(class_: string, state: Fields, schema: Schema, registry: Registry): Result<Fields, SnapshotError> {
    var named := ClassNamed(class_, schema, state);
    if Falsy(named) then Failure(NoOperatorClass)
    else if !named.Text? || (named.text, schema.version) !in registry then Failure(SchemaNotFound)
    else Success(Projected(DocumentOf(class_, schema, state), registry[(named.text, schema.version)].Names()))
  }

  /** Reading back what was written either fails or gives the fields of the schema that was found. */
  lemma ReadsBackAs(class_: string, state: Fields, registry: Registry, codec: Codec)
    requires codec.Lawful()
    requires Serialized(class_, state, registry, codec).Success?
    ensures Deserialized(Serialized(class_, state, registry, codec).value, registry, codec)
         == ReadBack(class_, state, registry[(class_, 1)], registry)
  {
    var schema := registry[(class_, 1)];
    var doc := DocumentOf(class_, schema, state);
    HeaderParts(schema.version, codec.pack(doc).value);
    DocumentProjects(class_, schema, state);
  }

  /**
    A snapshot reads back as the state's projection onto the schema exactly when the class
    it names leads back to a schema with the same fields.
   */
  lemma RoundTripIff(class_: string, state: Fields, registry: Registry, codec: Codec)
    requires codec.Lawful()
    requires Serialized(class_, state, registry, codec).Success?
    ensures Deserialized(Serialized(class_, state, registry, codec).value, registry, codec)
         == Success(Projected(state, registry[(class_, 1)].Names()))
       <==> LeadsBack(class_, state, registry)
  {
    var schema := registry[(class_, 1)];
    var named := ClassNamed(class_, schema, state);
    ReadsBackAs(class_, state, registry, codec);
    DocumentProjects(class_, schema, state);
    if !Falsy(named) && named.Text? && (named.text, schema.version) in registry {
      var found := registry[(named.text, schema.version)].Names();
      assert Projected(DocumentOf(class_, schema, state), found).Keys == found;
      assert Projected(state, schema.Names()).Keys == schema.Names();
    }
  }

  /**
    An ordinary schema - no field called `operator_class`, filed under its own version - round
    trips for exactly the versions that fit 16 bits, provided its document can be packed.
   */
  lemma RoundTripsWhenVersionFits(class_: string, state: Fields, registry: Registry, codec: Codec)
    requires codec.Lawful() && class_ != "" && (class_, 1) in registry
    requires var schema := registry[(class_, 1)];
             && "operator_class" !in schema.Names()
             && (class_, schema.version) in registry && registry[(class_, schema.version)].Names() == schema.Names()
             && codec.pack(DocumentOf(class_, schema, state)).Some?
    ensures var data := Serialized(class_, state, registry, codec);
            if 0 <= registry[(class_, 1)].version < 0x1_0000 then
              data.Success?
              && Deserialized(data.value, registry, codec) == Success(Projected(state, registry[(class_, 1)].Names()))
            else data == Failure(VersionOutOfRange)
  {
    if 0 <= registry[(class_, 1)].version < 0x1_0000 {
      RoundTripIff(class_, state, registry, codec);
    }
  }
}
