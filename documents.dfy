/**
 * Documents as the chat backend reads them back from its document store, and
 * `serialize_doc`, which turns one into the JSON-friendly dictionary that the
 * REST handlers return and the broadcast engine sends.
 */
module Documents {
  import opened Wrappers

  type Byte = x: int | 0 <= x < 256

  /** A BSON ObjectId: twelve bytes. */
  type ObjectId = b: seq<Byte> | |b| == 12 witness [0, 0, 0, 0, 0, 0, 0, 0, 0, 0, 0, 0]

  /**
   * A top-level value of a stored document: an ObjectId, a string, or any
   * other value (number, date, nested dictionary, null ...), represented by
   * the text Python's `str` renders it as.
   */
  datatype Value = OId(id: ObjectId) | Str(s: string) | Other(repr: string)

  type Doc = map<string, Value>

  const HexDigits := "0123456789abcdef"

  /** The value of one hexadecimal digit, either case. */
  function DigitValue(ch: char): (r: Option<int>)
    ensures r.Some? ==> 0 <= r.value < 16
  {
    if '0' <= ch <= '9' then Some(ch as int - '0' as int)
    else if 'a' <= ch <= 'f' then Some(ch as int - 'a' as int + 10)
    else if 'A' <= ch <= 'F' then Some(ch as int - 'A' as int + 10)
    else None
  }

  /** Two lower-case hexadecimal digits per byte, most significant first. */
  function Hexlify(bytes: seq<Byte>): (s: string)
    ensures |s| == 2 * |bytes|
  {
    if bytes == [] then ""
    else [HexDigits[bytes[0] / 16], HexDigits[bytes[0] % 16]] + Hexlify(bytes[1..])
  }

  /** The inverse of `Hexlify`: reads pairs of hexadecimal digits back into bytes, and fails on any other text. */
  function Unhexlify(s: string): (r: Option<seq<Byte>>)
    ensures r.Some? ==> 2 * |r.value| == |s|
    decreases |s|
  {
    if s == [] then Some([])
    else if |s| < 2 then None
    else match (DigitValue(s[0]), DigitValue(s[1]), Unhexlify(s[2..]))
      case (Some(hi), Some(lo), Some(rest)) => Some([hi * 16 + lo] + rest)
      case _ => None
  }

  /** The two digits written for one byte read back as that byte. */
  lemma ByteDigits(b: Byte)
    ensures DigitValue(HexDigits[b / 16]) == Some(b / 16)
    ensures DigitValue(HexDigits[b % 16]) == Some(b % 16)
    ensures b / 16 * 16 + b % 16 == b
  {
  }

  /** Unhexlify reads one leading pair of digits, then the rest. */
  lemma UnhexlifyPair(hi: char, lo: char, tail: string)
    requires DigitValue(hi).Some? && DigitValue(lo).Some? && Unhexlify(tail).Some?
    ensures Unhexlify([hi, lo] + tail) ==
      Some([DigitValue(hi).value * 16 + DigitValue(lo).value] + Unhexlify(tail).value)
  {
    assert ([hi, lo] + tail)[2..] == tail;
  }

  lemma {:induction false} UnhexlifyHexlify(bytes: seq<Byte>)
    ensures Unhexlify(Hexlify(bytes)) == Some(bytes)
  {
    if bytes != [] {
      var b, tail := bytes[0], bytes[1..];
      ByteDigits(b);
      UnhexlifyHexlify(tail);
      UnhexlifyPair(HexDigits[b / 16], HexDigits[b % 16], Hexlify(tail));
      assert [b] + tail == bytes;
    }
  }

  /** `str(ObjectId)`: the 24-character lower-case hexadecimal form. */
  function ObjectIdStr(id: ObjectId): (s: string)
    ensures |s| == 24
  {
    Hexlify(id)
  }

  /**
   * The inverse of `ObjectIdStr`, which shows that the text loses nothing:
   * `ObjectId(text)` on 24 hexadecimal digits, without the whitespace
   * `bytes.fromhex` would skip.
   */
  function ParseObjectId(text: string): (r: Option<ObjectId>)
    ensures r.Some? ==> |text| == 24
  {
    if |text| != 24 then None
    else match Unhexlify(text)
      case Some(bytes) => Some(bytes)
      case None => None
  }

  /** Parsing the text of an ObjectId gives that ObjectId back. */
  lemma ParseObjectIdStr(id: ObjectId)
    ensures ParseObjectId(ObjectIdStr(id)) == Some(id)
  {
    UnhexlifyHexlify(id);
  }

  /** Distinct ObjectIds have distinct texts, so the `id` strings stay unique. */
  lemma ObjectIdStrInjective(a: ObjectId, b: ObjectId)
    ensures ObjectIdStr(a) == ObjectIdStr(b) ==> a == b
  {
    ParseObjectIdStr(a);
    ParseObjectIdStr(b);
  }

  /** Python's `str` of a value. */
  function PyStr(v: Value): string
  {
    match v
    case OId(id) => ObjectIdStr(id)
    case Str(s) => s
    case Other(repr) => repr
  }

  /** What the conversion loop does to one top-level value. */
  function Converted(v: Value): Value
  {
    if v.OId? then Str(ObjectIdStr(v.id)) else v
  }

  /** Python truthiness of `doc`: `None` and the empty dictionary are falsy. */
  predicate Falsy(doc: Option<Doc>)
  {
    doc.None? || doc.value == map[]
  }

  /**
   * `serialize_doc`: a falsy document comes back as it is; otherwise `_id` is
   * renamed to `id` with its value stringified, and every other top-level
   * ObjectId is stringified. Nested values are left alone.
   */
  function Serialized(doc: Option<Doc>): (r: Option<Doc>)
    ensures Falsy(doc) ==> r == doc
    ensures doc.Some? ==> r.Some?
    ensures doc.Some? ==> "_id" !in r.value
    ensures doc.Some? && "_id" in doc.value ==> "id" in r.value && r.value["id"] == Str(PyStr(doc.value["_id"]))
    ensures doc.Some? ==> forall k :: k in r.value ==> !r.value[k].OId?
    ensures doc.Some? ==> r.value.Keys == if "_id" in doc.value then doc.value.Keys - {"_id"} + {"id"} else doc.value.Keys
    ensures doc.Some? ==> forall k :: k in doc.value && k != "_id" && !(k == "id" && "_id" in doc.value) ==>
      r.value[k] == (if doc.value[k].OId? then Str(ObjectIdStr(doc.value[k].id)) else doc.value[k])
  {
    if Falsy(doc) then doc
    else
      var d := doc.value;
      var renamed := if "_id" in d then (d - {"_id"})["id" := Str(PyStr(d["_id"]))] else d;
      Some(map k | k in renamed :: Converted(renamed[k]))
  }

  /** Serializing an already serialized document changes nothing. */
  lemma SerializedIdempotent(doc: Option<Doc>)
    ensures Serialized(Serialized(doc)) == Serialized(doc)
  {
    if !Falsy(doc) {
      var e := Serialized(doc).value;
      assert Serialized(Serialized(doc)).value == e;
    }
  }

  /**
   * The loop of `serialize_doc`: copy, move `_id` to `id`, then walk a
   * snapshot of the items and stringify every ObjectId.
   */
  method SerializeDoc(doc: Option<Doc>) returns (r: Option<Doc>)
    ensures r == Serialized(doc)
  {
    if Falsy(doc) {
      return doc;
    }
    var d := doc.value;
    if "_id" in d {
      var v := d["_id"];
      d := d - {"_id"};
      d := d["id" := Str(PyStr(v))];
    }
    ghost var copied := d;
    var pending := d.Keys;
    while pending != {}
      invariant pending <= d.Keys
      invariant d.Keys == copied.Keys
      invariant forall k :: k in d ==> d[k] == if k in pending then copied[k] else Converted(copied[k])
      decreases pending
    {
      var k :| k in pending;
      if d[k].OId? {
        d := d[k := Str(ObjectIdStr(d[k].id))];
      }
      pending := pending - {k};
    }
    assert d == Serialized(doc).value;
    r := Some(d);
  }
}
