/** Which payloads have a stable hash (stable_payload_hash, dagr_mcp/sdk_spine.py).
    Bytes, texts and None are hashed as they are; any other value is spelled as
    JSON, or by `str` when the encoder meets a value it does not know. A payload
    is looked at as far as its spelling can fail. */
module PayloadHash {
  import opened Prelude

  type CodePoint = n: int | 0 <= n < 0x11_0000

  // A text of the source language, which may hold lone surrogates.
  type Text = seq<CodePoint>

  // What `text.encode("utf-8")` accepts.
  predicate Encodable(text: Text)
  {
    forall i | 0 <= i < |text| :: !(0xD800 <= text[i] <= 0xDFFF)
  }

  /** A dictionary key. A long number is an integer of more digits than the
      interpreter spells; what `repr` gives of another object is None when it
      raises. */
  datatype DictKey = TextKey(text: Text) | NumberKey | LongNumberKey | NullKey | ObjectKey(quoted: Option<Text>)

  datatype Entry = Entry(key: DictKey, value: Value)

  /** A value. `Number` is a boolean, a float or an integer that can be spelled;
      `Enclosing` is a container met again inside itself; `Object` is a value the
      encoder does not know, with what `str` and `repr` give of it. The entries of
      a dictionary are in the order of its keys, where these can be sorted. */
  datatype Value =
    | Nothing
    | Number
    | LongInteger
    | Bytes
    | TextValue(text: Text)
    | List(items: seq<Value>)
    | Dict(entries: seq<Entry>)
    | Enclosing
    | Object(shown: Option<Text>, quoted: Option<Text>)

  // How encoding ends: with a text, with the TypeError of an unknown value, or
  // with a ValueError.
  datatype Encoding = Spelled(encodable: bool) | Unserialisable | Refused

  function Then(first: Encoding, second: Encoding): Encoding
  {
    match first
    case Spelled(e) => if second.Spelled? then Spelled(e && second.encodable) else second
    case _ => first
  }

  // Keys of different kinds cannot be compared.
  predicate KeysSort(entries: seq<Entry>)
  {
    forall i, j | 0 <= i < j < |entries| :: Alike(entries[i].key, entries[j].key)
  }

  // Two keys of one kind.
  predicate Alike(k: DictKey, other: DictKey)
  {
    || (k.TextKey? && other.TextKey?) || (NumericKey(k) && NumericKey(other)) || (k.ObjectKey? && other.ObjectKey?)
  }

  predicate NumericKey(k: DictKey)
  {
    k.NumberKey? || k.LongNumberKey?
  }

  function KeyEncoding(k: DictKey): Encoding
  {
    match k
    case TextKey(text) => Spelled(Encodable(text))
    case NumberKey | NullKey => Spelled(true)
    case LongNumberKey => Refused
    case ObjectKey(_) => Unserialisable
  }

  // json.dumps(payload, sort_keys=True, ensure_ascii=False): depth first, and
  // the first value that cannot be spelled decides.
  function Dumps(v: Value): Encoding
  {
    match v
    case Nothing | Number => Spelled(true)
    case LongInteger | Enclosing => Refused
    case TextValue(text) => Spelled(Encodable(text))
    case Bytes | Object(_, _) => Unserialisable
    case List(items) => DumpsItems(items)
    case Dict(entries) => if KeysSort(entries) then DumpsEntries(entries) else Unserialisable
  }

  function DumpsItems(items: seq<Value>): Encoding
  {
    if |items| == 0 then Spelled(true) else Then(Dumps(items[0]), DumpsItems(items[1..]))
  }

  function DumpsEntries(entries: seq<Entry>): Encoding
  {
    if |entries| == 0 then Spelled(true)
    else Then(DumpsEntry(entries[0]), DumpsEntries(entries[1..]))
  }

  function DumpsEntry(entry: Entry): Encoding
  {
    Then(KeyEncoding(entry.key), Dumps(entry.value))
  }

  // `repr(value)`: None when it raises, otherwise whether its text can be
  // encoded. It escapes surrogates and cuts a container that holds itself short.
  function Repr(v: Value): Option<bool>
  {
    match v
    case Nothing | Number | Bytes | TextValue(_) | Enclosing => Some(true)
    case LongInteger => None
    case Object(_, quoted) => if quoted.Some? then Some(Encodable(quoted.value)) else None
    case List(items) => ReprItems(items)
    case Dict(entries) => ReprEntries(entries)
  }

  function Both(a: Option<bool>, b: Option<bool>): Option<bool>
  {
    if a.Some? && b.Some? then Some(a.value && b.value) else None
  }

  function ReprItems(items: seq<Value>): Option<bool>
  {
    if |items| == 0 then Some(true) else Both(Repr(items[0]), ReprItems(items[1..]))
  }

  function KeyRepr(k: DictKey): Option<bool>
  {
    match k
    case LongNumberKey => None
    case ObjectKey(quoted) => if quoted.Some? then Some(Encodable(quoted.value)) else None
    case _ => Some(true)
  }

  function ReprEntries(entries: seq<Entry>): Option<bool>
  {
    if |entries| == 0 then Some(true)
    else Both(ReprEntry(entries[0]), ReprEntries(entries[1..]))
  }

  function ReprEntry(entry: Entry): Option<bool>
  {
    Both(KeyRepr(entry.key), Repr(entry.value))
  }

  // `str(value)` of a value the encoder gave up on.
  function Str(v: Value): Option<bool>
  {
    match v
    case Object(shown, _) => if shown.Some? then Some(Encodable(shown.value)) else None
    case _ => Repr(v)
  }

  /** stable_payload_hash returns; otherwise it raises. */
  predicate HasHash(v: Value)
  {
    match v
    case Bytes | Nothing => true
    case TextValue(text) => Encodable(text)
    case _ =>
      match Dumps(v)
      case Spelled(encodable) => encodable
      case Unserialisable => Str(v) == Some(true)
      case Refused => false
  }

  // What JSON spells, in texts that can be encoded, with bytes and with objects
  // among it that spell themselves.
  predicate Tame(v: Value)
  {
    match v
    case Nothing | Number | Bytes => true
    case TextValue(text) => Encodable(text)
    case Object(shown, quoted) => shown.Some? && Encodable(shown.value) && quoted.Some? && Encodable(quoted.value)
    case List(items) => forall i | 0 <= i < |items| :: Tame(items[i])
    case Dict(entries) => forall i | 0 <= i < |entries| :: TameEntry(entries[i])
    case LongInteger | Enclosing => false
  }

  predicate TameEntry(entry: Entry)
  {
    TameKey(entry.key) && Tame(entry.value)
  }

  predicate TameKey(k: DictKey)
  {
    match k
    case TextKey(text) => Encodable(text)
    case NumberKey | NullKey => true
    case LongNumberKey => false
    case ObjectKey(quoted) => quoted.Some? && Encodable(quoted.value)
  }

  lemma {:induction false} TameSpells(v: Value)
    requires Tame(v)
    ensures Dumps(v) == Spelled(true) || Dumps(v).Unserialisable?
    ensures Repr(v) == Some(true)
    decreases v
  {
    match v {
      case List(items) => TameItems(items);
      case Dict(entries) => TameEntries(entries);
      case _ =>
    }
  }

  lemma {:induction false} TameItems(items: seq<Value>)
    requires forall i | 0 <= i < |items| :: Tame(items[i])
    ensures DumpsItems(items) == Spelled(true) || DumpsItems(items).Unserialisable?
    ensures ReprItems(items) == Some(true)
    decreases items
  {
    if |items| > 0 {
      TameSpells(items[0]);
      TameItems(items[1..]);
    }
  }

  lemma {:induction false} TameEntries(entries: seq<Entry>)
    requires forall i | 0 <= i < |entries| :: TameEntry(entries[i])
    ensures DumpsEntries(entries) == Spelled(true) || DumpsEntries(entries).Unserialisable?
    ensures ReprEntries(entries) == Some(true)
    decreases entries
  {
    if |entries| > 0 {
      EntrySpells(entries[0]);
      TameEntries(entries[1..]);
    }
  }

  lemma {:induction false} EntrySpells(entry: Entry)
    requires TameEntry(entry)
    ensures DumpsEntry(entry) == Spelled(true) || DumpsEntry(entry).Unserialisable?
    ensures ReprEntry(entry) == Some(true)
    decreases entry
  {
    TameSpells(entry.value);
  }

  /** Every ordinary payload has a hash: any tree of encodable texts, numbers,
      None, bytes, lists and dictionaries, also with objects in it that JSON does
      not know, as long as these spell themselves. */
  lemma TameHasHash(v: Value)
    requires Tame(v)
    ensures HasHash(v)
  {
    TameSpells(v);
  }

  /** Payloads without a hash: a text with a lone surrogate, a list that holds
      itself, an integer too long to spell, an object whose `str` raises. Which
      failure comes first matters: behind an unknown value, which sends the whole
      payload to `str`, a list that holds itself does no harm. */
  lemma WithoutHash()
    ensures !HasHash(TextValue([0xD800])) && !HasHash(List([Enclosing]))
    ensures !HasHash(LongInteger) && !HasHash(Object(None, None))
    ensures !HasHash(List([Enclosing, Bytes])) && HasHash(List([Bytes, Enclosing]))
  {
    assert [Enclosing][1..] == [] && [Bytes, Enclosing][1..] == [Enclosing] && [Enclosing, Bytes][1..] == [Bytes];
    assert [0xD800][0] == 0xD800;
  }

  // ---- Exactly when --------------------------------------------------------

  /** How far the encoder gets with one part of a payload: it spells it, in a text
      that can be encoded or not, gives up on the payload, or raises. */
  datatype Part = Good | Lone | Unknown | Fatal

  // All keys of one kind can be sorted, and so can a single key of any.
  predicate Sortable(entries: seq<Entry>)
  {
    || |entries| <= 1
    || (forall i | 0 <= i < |entries| :: entries[i].key.TextKey?)
    || (forall i | 0 <= i < |entries| :: entries[i].key.NumberKey? || entries[i].key.LongNumberKey?)
    || (forall i | 0 <= i < |entries| :: entries[i].key.ObjectKey?)
  }

  function KeyPart(k: DictKey): Part
  {
    match k
    case TextKey(text) => if Encodable(text) then Good else Lone
    case LongNumberKey => Fatal
    case ObjectKey(_) => Unknown
    case _ => Good
  }

  // The parts of a payload in the order the encoder meets them.
  function Parts(v: Value): seq<Part>
  {
    match v
    case Nothing | Number => [Good]
    case TextValue(text) => [if Encodable(text) then Good else Lone]
    case Bytes | Object(_, _) => [Unknown]
    case LongInteger | Enclosing => [Fatal]
    case List(items) => PartsOfItems(items)
    case Dict(entries) => if Sortable(entries) then PartsOfEntries(entries) else [Unknown]
  }

  function PartsOfItems(items: seq<Value>): seq<Part>
  {
    if |items| == 0 then [] else Parts(items[0]) + PartsOfItems(items[1..])
  }

  function PartsOfEntries(entries: seq<Entry>): seq<Part>
  {
    if |entries| == 0 then []
    else PartsOfEntry(entries[0]) + PartsOfEntries(entries[1..])
  }

  function PartsOfEntry(entry: Entry): seq<Part>
  {
    [KeyPart(entry.key)] + Parts(entry.value)
  }

  // The first part that stops the encoder is this one.
  predicate StopsAt(parts: seq<Part>, part: Part)
  {
    exists i | 0 <= i < |parts| :: parts[i] == part && forall j | 0 <= j < i :: parts[j] == Good || parts[j] == Lone
  }

  predicate AllGood(parts: seq<Part>)
  {
    forall i | 0 <= i < |parts| :: parts[i] == Good
  }

  predicate Ends(e: Encoding, parts: seq<Part>)
  {
    match e
    case Spelled(encodable) =>
      && Spells(parts)
      && (encodable <==> AllGood(parts))
    case Unserialisable => StopsAt(parts, Unknown)
    case Refused => StopsAt(parts, Fatal)
  }

  predicate Spells(parts: seq<Part>)
  {
    forall i | 0 <= i < |parts| :: parts[i] == Good || parts[i] == Lone
  }

  lemma StopsThen(a: seq<Part>, b: seq<Part>, part: Part)
    ensures StopsAt(a, part) ==> StopsAt(a + b, part)
    ensures Spells(a) && StopsAt(b, part) ==> StopsAt(a + b, part)
  {
    if StopsAt(a, part) {
      var i :| 0 <= i < |a| && a[i] == part && forall j | 0 <= j < i :: a[j] == Good || a[j] == Lone;
      assert (a + b)[i] == part;
    }
    if Spells(a) && StopsAt(b, part) {
      var i :| 0 <= i < |b| && b[i] == part && forall j | 0 <= j < i :: b[j] == Good || b[j] == Lone;
      assert (a + b)[|a| + i] == part;
    }
  }

  lemma SpellsThen(a: seq<Part>, b: seq<Part>)
    ensures Spells(a) && Spells(b) <==> Spells(a + b)
    ensures AllGood(a) && AllGood(b) <==> AllGood(a + b)
  {
    assert forall i | 0 <= i < |a| :: (a + b)[i] == a[i];
    assert forall i | 0 <= i < |b| :: (a + b)[|a| + i] == b[i];
  }

  lemma EndsThen(first: Encoding, a: seq<Part>, second: Encoding, b: seq<Part>)
    requires Ends(first, a) && Ends(second, b)
    ensures Ends(Then(first, second), a + b)
  {
    SpellsThen(a, b);
    StopsThen(a, b, Unknown);
    StopsThen(a, b, Fatal);
  }

  lemma SortableKeys(entries: seq<Entry>)
    ensures KeysSort(entries) <==> Sortable(entries)
  {
    if |entries| > 1 && KeysSort(entries) {
      assert Alike(entries[0].key, entries[1].key);
      assert forall i | 0 < i < |entries| :: Alike(entries[0].key, entries[i].key);
    }
  }

  lemma OnePart(part: Part)
    ensures part == Good || part == Lone <==> Spells([part])
    ensures part == Good <==> AllGood([part])
    ensures StopsAt([part], Unknown) <==> part == Unknown
    ensures StopsAt([part], Fatal) <==> part == Fatal
  {
    assert [part][0] == part;
  }

  lemma {:induction false} EncoderEnds(v: Value)
    ensures Ends(Dumps(v), Parts(v))
    decreases v
  {
    match v {
      case List(items) => ItemsEnd(items);
      case Dict(entries) =>
        SortableKeys(entries);
        if Sortable(entries) {
          EntriesEnd(entries);
        } else {
          OnePart(Unknown);
        }
      case _ =>
        OnePart(Parts(v)[0]);
    }
  }

  lemma {:induction false} ItemsEnd(items: seq<Value>)
    ensures Ends(DumpsItems(items), PartsOfItems(items))
    decreases items
  {
    if |items| > 0 {
      EncoderEnds(items[0]);
      ItemsEnd(items[1..]);
      EndsThen(Dumps(items[0]), Parts(items[0]), DumpsItems(items[1..]), PartsOfItems(items[1..]));
    }
  }

  lemma {:induction false} EntriesEnd(entries: seq<Entry>)
    ensures Ends(DumpsEntries(entries), PartsOfEntries(entries))
    decreases entries
  {
    if |entries| > 0 {
      var entry, rest := entries[0], entries[1..];
      EntryEnds(entry);
      EntriesEnd(rest);
      EndsThen(DumpsEntry(entry), PartsOfEntry(entry), DumpsEntries(rest), PartsOfEntries(rest));
    }
  }

  lemma {:induction false} EntryEnds(entry: Entry)
    ensures Ends(DumpsEntry(entry), PartsOfEntry(entry))
    decreases entry
  {
    EncoderEnds(entry.value);
    OnePart(KeyPart(entry.key));
    EndsThen(KeyEncoding(entry.key), [KeyPart(entry.key)], Dumps(entry.value), Parts(entry.value));
  }

  // `repr` spells everything in the value, in texts that can be encoded.
  predicate Quotable(v: Value)
  {
    match v
    case LongInteger => false
    case Object(_, quoted) => quoted.Some? && Encodable(quoted.value)
    case List(items) => forall i | 0 <= i < |items| :: Quotable(items[i])
    case Dict(entries) =>
      forall i | 0 <= i < |entries| :: QuotableKey(entries[i].key) && Quotable(entries[i].value)
    case _ => true
  }

  predicate QuotableKey(k: DictKey)
  {
    match k
    case LongNumberKey => false
    case ObjectKey(quoted) => quoted.Some? && Encodable(quoted.value)
    case _ => true
  }

  lemma {:induction false} ReprQuotes(v: Value)
    ensures Repr(v) == Some(true) <==> Quotable(v)
    decreases v
  {
    match v {
      case List(items) => ItemsQuote(items);
      case Dict(entries) => EntriesQuote(entries);
      case _ =>
    }
  }

  lemma {:induction false} ItemsQuote(items: seq<Value>)
    ensures ReprItems(items) == Some(true) <==> forall i | 0 <= i < |items| :: Quotable(items[i])
    decreases items
  {
    if |items| > 0 {
      ReprQuotes(items[0]);
      ItemsQuote(items[1..]);
      assert forall i | 0 < i < |items| :: items[i] == items[1..][i - 1];
    }
  }

  lemma {:induction false} EntriesQuote(entries: seq<Entry>)
    ensures ReprEntries(entries) == Some(true) <==>
            forall i | 0 <= i < |entries| :: QuotableKey(entries[i].key) && Quotable(entries[i].value)
    decreases entries
  {
    if |entries| > 0 {
      EntryQuotes(entries[0]);
      EntriesQuote(entries[1..]);
      assert forall i | 0 < i < |entries| :: entries[i] == entries[1..][i - 1];
    }
  }

  lemma {:induction false} EntryQuotes(entry: Entry)
    ensures ReprEntry(entry) == Some(true) <==> QuotableKey(entry.key) && Quotable(entry.value)
    decreases entry
  {
    ReprQuotes(entry.value);
  }

  /** Exactly which payloads have a hash: bytes and None; a text that can be
      encoded; a value of which the encoder spells every part, in such texts; and
      one that it gives up on before any part makes it raise, if `str` spells it,
      which for a list or a dictionary means every part of it. */
  lemma HashIsExact(v: Value)
    ensures HasHash(v) <==>
            match v
            case Bytes | Nothing => true
            case TextValue(text) => Encodable(text)
            case Object(shown, _) => shown.Some? && Encodable(shown.value)
            case _ =>
              || AllGood(Parts(v))
              || (StopsAt(Parts(v), Unknown) && Quotable(v))
  {
    EncoderEnds(v);
    ReprQuotes(v);
    OneStop(Parts(v));
    if v.List? || v.Dict? {
      match Dumps(v) {
        case Spelled(encodable) => assert HasHash(v) == encodable;
        case Unserialisable => assert HasHash(v) == (Repr(v) == Some(true));
        case Refused => assert !HasHash(v);
      }
    }
  }

  // Whatever stops the encoder is the only thing that does.
  lemma OneStop(parts: seq<Part>)
    ensures StopsAt(parts, Unknown) ==> !StopsAt(parts, Fatal)
    ensures StopsAt(parts, Unknown) || StopsAt(parts, Fatal) ==>
              !Spells(parts) && !AllGood(parts)
  {
    if StopsAt(parts, Unknown) {
      var i :| 0 <= i < |parts| && parts[i] == Unknown && forall j | 0 <= j < i :: parts[j] == Good || parts[j] == Lone;
      assert forall k | 0 <= k < |parts| && parts[k] == Fatal :: i < k;
    }
  }
}
