/** The Java side: reading a snapshot and translating its fields. */
module FlinkReader {
  import opened Wrappers
  import opened Values
  import opened Snapshots

  /** A Java byte. */
  type SignedByte = b: int | -0x80 <= b < 0x80

  function Signed(b: Byte): SignedByte {
    if b < 0x80 then b else b - 0x100
  }

  /** The same bytes as Java holds them. */
  function AsJava(data: seq<Byte>): (bytes: seq<SignedByte>)
    ensures |bytes| == |data|
    ensures forall i :: 0 <= i < |data| ==> bytes[i] == Signed(data[i])
  {
    seq(|data|, i requires 0 <= i < |data| => Signed(data[i]))
  }

  datatype ReaderError = TooSmall | WrongMagic | Unsupported(version: int) | Unreadable | NumberFormat | NoSchema

  /** The Java registry: supported versions and field types per operator type. */
  datatype JavaRegistry = JavaRegistry(versions: map<string, set<int>>, types: map<string, map<string, string>>) {

    predicate Supports(operatorType: string, version: int) {
      version > 0 && operatorType in versions && version in versions[operatorType]
    }
  }

  /** `b & 0xFF`. */
  function Unsigned(b: SignedByte): Byte {
    b % 0x100
  }

  /** The MessagePack reader of the Java side. */
  type JavaUnpack = seq<SignedByte> -> Option<Fields>

  function ReadBytes(bytes: seq<SignedByte>, operatorType: string, registry: JavaRegistry, unpack: JavaUnpack)
    : Result<Fields, ReaderError>
  {
    if |bytes| < HEADER_SIZE then Failure(TooSmall)
    else if bytes[..4] != AsJava(MAGIC) then Failure(WrongMagic)
    else
      var version := BigEndian(Unsigned(bytes[4]), Unsigned(bytes[5]));
      if !registry.Supports(operatorType, version) then Failure(Unsupported(version))
      else
        var state := unpack(bytes[HEADER_SIZE..]);
        if state.None? then Failure(Unreadable) else Success(state.value)
  }

  /** A signed byte as the number its eight bits denote. */
  function Bits(b: SignedByte): int {
    if b < 0 then b + 256 else b
  }

  /** What each kind of input leads to, in the order in which the checks come. */
  lemma ReadsWhen(bytes: seq<SignedByte>, operatorType: string, registry: JavaRegistry, unpack: JavaUnpack)
    ensures var r := ReadBytes(bytes, operatorType, registry, unpack);
            if |bytes| < 6 then r == Failure(TooSmall)
            else if bytes[0] != 0x48 || bytes[1] != 0x53 || bytes[2] != 0x4D || bytes[3] != 0x50 then
              r == Failure(WrongMagic)
            else
              var version := 256 * Bits(bytes[4]) + Bits(bytes[5]);
              if version == 0 || operatorType !in registry.versions || version !in registry.versions[operatorType] then
                r == Failure(Unsupported(version))
              else
                match unpack(bytes[6..]) case None => r == Failure(Unreadable) case Some(doc) => r == Success(doc)
  {
    if |bytes| >= 6 {
      var magic := AsJava(MAGIC);
      assert magic == [0x48, 0x53, 0x4D, 0x50];
      assert bytes[..4] == [bytes[0], bytes[1], bytes[2], bytes[3]];
      assert Unsigned(bytes[4]) == Bits(bytes[4]) && Unsigned(bytes[5]) == Bits(bytes[5]);
    }
  }

  method Deserialize(bytes: array<SignedByte>, operatorType: string, registry: JavaRegistry, unpack: JavaUnpack)
    returns (state: Result<Fields, ReaderError>)
    ensures state == ReadBytes(bytes[..], operatorType, registry, unpack)
  {
    if bytes.Length < HEADER_SIZE {
      return Failure(TooSmall);
    }
    var magic := AsJava(MAGIC);
    for i := 0 to 4
      invariant bytes[..i] == magic[..i]
    {
      if bytes[i] != magic[i] {
        assert bytes[..4][i] != magic[i];
        assert bytes[..][..4] == bytes[..4];
        return Failure(WrongMagic);
      }
    }
    assert bytes[..][..4] == magic;
    var version := BigEndian(Unsigned(bytes[4]), Unsigned(bytes[5]));
    if !registry.Supports(operatorType, version) {
      return Failure(Unsupported(version));
    }
    var payload := new SignedByte[bytes.Length - HEADER_SIZE];
    for i := 0 to payload.Length
      invariant forall k :: 0 <= k < i ==> payload[k] == bytes[HEADER_SIZE + k]
    {
      payload[i] := bytes[HEADER_SIZE + i];
    }
    assert payload[..] == bytes[..][HEADER_SIZE..];
    var read := unpack(payload[..]);
    state := if read.None? then Failure(Unreadable) else Success(read.value);
  }

  // ---- translating values ----

  /** The Java library calls that turn values into text and text into values. */
  datatype Library = Library(textOf: Value -> string, parseDouble: string -> Option<real>,
                             parseLong: string -> Option<int>, parseBoolean: string -> bool)

  const LONG_MIN := -0x8000_0000_0000_0000
  const LONG_SPAN := 0x1_0000_0000_0000_0000

  /** The low 64 bits of an integer, as a signed number. */
  function LowBits(n: int): int {
    (n - LONG_MIN) % LONG_SPAN + LONG_MIN
  }

  /** A double cast to long: toward zero, clamped to the range. */
  function Clamped(x: real): int {
    var n := Truncated(x);
    if n < LONG_MIN then LONG_MIN else if n >= LONG_MIN + LONG_SPAN then LONG_MIN + LONG_SPAN - 1 else n
  }

  function Parsed<T>(x: Option<T>): Result<T, ReaderError> {
    if x.Some? then Success(x.value) else Failure(NumberFormat)
  }

  /** `translateValue`. */
  function TranslateValue(v: Value, schemaType: string, lib: Library): Result<Value, ReaderError> {
    if v == Null then Success(Null)
    else if schemaType == "float" then
      if v.Decimal? then Success(v)
      else if v.Whole? then Success(Decimal(v.whole as real))
      else
        var x := Parsed(lib.parseDouble(lib.textOf(v)));
        if x.Success? then Success(Decimal(x.value)) else Failure(x.error)
    else if schemaType == "int" then
      if v.Decimal? then Success(Whole(Clamped(v.decimal)))
      else if v.Whole? then Success(Whole(LowBits(v.whole)))
      else
        var n := Parsed(lib.parseLong(lib.textOf(v)));
        if n.Success? then Success(Whole(n.value)) else Failure(n.error)
    else if schemaType == "bool" || schemaType == "boolean" then
      if v.Flag? then Success(v) else Success(Flag(lib.parseBoolean(lib.textOf(v))))
    else if schemaType == "str" || schemaType == "string" then
      if v.Text? then Success(v) else Success(Text(lib.textOf(v)))
    else Success(v)
  }

  /** The value is null or already has the schema's type. Types the reader does not know fit everything. */
  predicate HasType(v: Value, schemaType: string) {
    || v == Null
    || (if schemaType == "float" then v.Decimal?
        else if schemaType == "int" then v.Whole? && LONG_MIN <= v.whole < LONG_MIN + LONG_SPAN
        else if schemaType == "bool" || schemaType == "boolean" then v.Flag?
        else if schemaType == "str" || schemaType == "string" then v.Text?
        else true)
  }

  lemma LowBitsFixed(n: int)
    ensures LowBits(n) == n <==> LONG_MIN <= n < LONG_MIN + LONG_SPAN
  {
  }

  /** Translation leaves a value alone exactly when it has the schema's type. */
  lemma UnchangedIffTyped(v: Value, schemaType: string, lib: Library)
    ensures TranslateValue(v, schemaType, lib) == Success(v) <==> HasType(v, schemaType)
  {
    if v.Whole? {
      LowBitsFixed(v.whole);
    }
  }

  /** `n` is `x` rounded toward zero. */
  predicate TowardZero(x: real, n: int) {
    if x >= 0.0 then n as real <= x < (n + 1) as real else (n - 1) as real < x <= n as real
  }

  lemma TruncatedIs(x: real)
    ensures TowardZero(x, Truncated(x))
  {
  }

  /** How a number becomes a 64-bit integer: integers wrap around, other numbers round toward zero and are clamped. */
  predicate AsLong(v: Value, n: int) {
    && -0x8000_0000_0000_0000 <= n <= 0x7FFF_FFFF_FFFF_FFFF
    && (v.Whole? ==> (v.whole - n) % 0x1_0000_0000_0000_0000 == 0)
    && (v.Decimal? ==>
          || TowardZero(v.decimal, n)
          || (v.decimal > n as real && n == 0x7FFF_FFFF_FFFF_FFFF)
          || (v.decimal < n as real && n == -0x8000_0000_0000_0000))
  }

  /** What translation makes of values of another type; text that does not parse as a number raises. */
  lemma ConvertedTo(v: Value, schemaType: string, lib: Library)
    requires v != Null
    ensures schemaType == "float" && v.Whole? ==>
              TranslateValue(v, schemaType, lib) == Success(Decimal(v.whole as real))
    ensures schemaType == "float" && !v.Whole? && !v.Decimal? ==>
              match lib.parseDouble(lib.textOf(v))
              case None => TranslateValue(v, schemaType, lib) == Failure(NumberFormat)
              case Some(x) => TranslateValue(v, schemaType, lib) == Success(Decimal(x))
    ensures schemaType == "int" && (v.Whole? || v.Decimal?) ==>
              exists n :: AsLong(v, n) && TranslateValue(v, schemaType, lib) == Success(Whole(n))
    ensures schemaType == "int" && !v.Whole? && !v.Decimal? ==>
              match lib.parseLong(lib.textOf(v))
              case None => TranslateValue(v, schemaType, lib) == Failure(NumberFormat)
              case Some(n) => TranslateValue(v, schemaType, lib) == Success(Whole(n))
    ensures schemaType in {"bool", "boolean"} && !v.Flag? ==>
              TranslateValue(v, schemaType, lib) == Success(Flag(lib.parseBoolean(lib.textOf(v))))
    ensures schemaType in {"str", "string"} && !v.Text? ==>
              TranslateValue(v, schemaType, lib) == Success(Text(lib.textOf(v)))
  {
    if schemaType == "int" && v.Whole? {
      assert AsLong(v, LowBits(v.whole));
    } else if schemaType == "int" && v.Decimal? {
      TruncatedIs(v.decimal);
      assert AsLong(v, Clamped(v.decimal));
    }
  }

  /** The raw fields the schema knows can all be translated. */
  predicate Translatable(raw: Fields, types: map<string, string>, lib: Library) {
    forall k :: k in raw && k in types ==> TranslateValue(raw[k], types[k], lib).Success?
  }

  function Translated(raw: Fields, types: map<string, string>, lib: Library): Fields
    requires Translatable(raw, types, lib)
  {
    map k | k in raw && k in types :: TranslateValue(raw[k], types[k], lib).value
  }

  /** The entries come in any order; the first one that does not parse ends the translation. */
  method TranslateToFlinkState(raw: Fields, operatorType: string, registry: JavaRegistry, lib: Library)
    returns (result: Result<Fields, ReaderError>)
    ensures operatorType !in registry.types ==> result == Failure(NoSchema)
    ensures operatorType in registry.types ==>
              if Translatable(raw, registry.types[operatorType], lib)
              then result == Success(Translated(raw, registry.types[operatorType], lib))
              else result == Failure(NumberFormat)
  {
    if operatorType !in registry.types {
      return Failure(NoSchema);
    }
    var schema := registry.types[operatorType];
    var out: Fields := map[];
    var left := raw.Keys;
    while left != {}
      invariant left <= raw.Keys
      invariant forall k :: k in raw && k !in left && k in schema ==> TranslateValue(raw[k], schema[k], lib).Success?
      invariant out == map k | k in raw && k !in left && k in schema
                         && TranslateValue(raw[k], schema[k], lib).Success? ::
                          TranslateValue(raw[k], schema[k], lib).value
    {
      var key :| key in left;
      left := left - {key};
      if key in schema {
        var value := TranslateValue(raw[key], schema[key], lib);
        if value.Failure? {
          return Failure(value.error);
        }
        out := out[key := value.value];
      }
    }
    assert out == Translated(raw, schema, lib);
    result := Success(out);
  }

  // ---- reading what Python wrote ----

  /** No mapping inside the value has a key other than text: such keys become text in Java. */
  predicate TextKeyed(v: Value)
    decreases v
  {
    match v
    case Listed(xs) => forall i :: 0 <= i < |xs| ==> TextKeyed(xs[i])
    case Mapped(es) => forall i :: 0 <= i < |es| ==> es[i].0.Text? && TextKeyed(es[i].1)
    case _ => true
  }

  ghost predicate AllTextKeyed(d: Fields) {
    forall k :: k in d ==> TextKeyed(d[k])
  }

  /** The Java reader undoes the Python packer on documents whose inner mappings have text keys. */
  ghost predicate Agrees(codec: Codec, unpack: JavaUnpack) {
    forall d {:trigger codec.pack(d)} :: codec.pack(d).Some? && AllTextKeyed(d) ==>
      unpack(AsJava(codec.pack(d).value)) == Some(d)
  }

  lemma SignRoundTrip(b: Byte)
    ensures Unsigned(Signed(b)) == b
  {
  }

  lemma JavaHeader(version: int, payload: seq<Byte>)
    requires 0 <= version < 0x1_0000
    ensures var bytes := AsJava(MAGIC + VersionBytes(version) + payload);
            && |bytes| >= HEADER_SIZE
            && bytes[..4] == AsJava(MAGIC)
            && bytes[HEADER_SIZE..] == AsJava(payload)
            && BigEndian(Unsigned(bytes[4]), Unsigned(bytes[5])) == version
  {
    HeaderParts(version, payload);
    SignRoundTrip(version / 0x100);
    SignRoundTrip(version % 0x100);
  }

  /**
    Java recovers the version that Python wrote, whatever the signs of its bytes: it accepts
    the snapshot and sees the same document exactly when it supports that version, which
    zero never is, and otherwise reports that version.
   */
  lemma JavaSeesTheDocument(class_: string, state: Fields, python: Registry, codec: Codec,
                            java: JavaRegistry, unpack: JavaUnpack)
    requires Serialized(class_, state, python, codec).Success? && Agrees(codec, unpack)
    requires AllTextKeyed(DocumentOf(class_, python[(class_, 1)], state))
    ensures ReadBytes(AsJava(Serialized(class_, state, python, codec).value), class_, java, unpack)
         == if python[(class_, 1)].version > 0 && java.Supports(class_, python[(class_, 1)].version)
            then Success(DocumentOf(class_, python[(class_, 1)], state))
            else Failure(Unsupported(python[(class_, 1)].version))
  {
    var schema := python[(class_, 1)];
    JavaHeader(schema.version, codec.pack(DocumentOf(class_, schema, state)).value);
  }

  predicate TranslatesTo(raw: Fields, types: map<string, string>, lib: Library, result: Fields) {
    Translatable(raw, types, lib) && Translated(raw, types, lib) == result
  }

  /**
    With the same fields in both registries, translating the document gives back the
    state's projection exactly when every written value is null or has its schema type.
   */
  lemma TranslationKeepsFieldsIff(class_: string, state: Fields, schema: Schema, types: map<string, string>,
                                  lib: Library)
    requires types.Keys == schema.Names()
    ensures TranslatesTo(DocumentOf(class_, schema, state), types, lib, Projected(state, schema.Names()))
       <==> forall f :: f in types ==> HasType(Get(state, f, Null), types[f])
  {
    var doc := DocumentOf(class_, schema, state);
    forall f | f in types
      ensures f in doc && doc[f] == Get(state, f, Null)
      ensures TranslateValue(doc[f], types[f], lib) == Success(doc[f]) <==> HasType(Get(state, f, Null), types[f])
    {
      UnchangedIffTyped(doc[f], types[f], lib);
    }
    if forall f :: f in types ==> HasType(Get(state, f, Null), types[f]) {
      assert Translated(doc, types, lib) == Projected(state, schema.Names());
    } else {
      var f :| f in types && !HasType(Get(state, f, Null), types[f]);
      assert f in doc && TranslateValue(doc[f], types[f], lib) != Success(doc[f]);
      if Translatable(doc, types, lib) {
        assert Translated(doc, types, lib)[f] != Projected(state, schema.Names())[f];
      }
    }
  }
}
