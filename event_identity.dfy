/** The per-event identity a master hands out: a random key per event and a
    six-digit PIN per key, created on first use and kept in the browser's
    string storage. */
module EventIdentity {
  import opened Text
  import opened JsValue

  const EVENTO_KEY_PREFIX := "pdv:eventoKey"
  const EVENTO_PIN_PREFIX := "pdv:eventoPin"

  /** The storage slot for an id under a prefix: the prefix, a colon and
      the id. */
  function BuildKey(prefix: string, id: string): (r: string)
    ensures |r| == |prefix| + 1 + |id|
    ensures r[..|prefix|] == prefix && r[|prefix|] == ':' && r[|prefix| + 1..] == id
  {
    prefix + ":" + id
  }

  /** Distinct ids get distinct slots under the same prefix. */
  lemma BuildKeyInjective(prefix: string, a: string, b: string)
    requires BuildKey(prefix, a) == BuildKey(prefix, b)
    ensures a == b
  {
    assert a == BuildKey(prefix, a)[|prefix| + 1..];
  }

  /** An event-key slot is never a PIN slot, whatever the ids. */
  lemma KeyAndPinSlotsDistinct(a: string, b: string)
    ensures BuildKey(EVENTO_KEY_PREFIX, a) != BuildKey(EVENTO_PIN_PREFIX, b)
  {
    assert BuildKey(EVENTO_KEY_PREFIX, a)[10] == 'K';
    assert BuildKey(EVENTO_PIN_PREFIX, b)[10] == 'P';
  }

  // ---------------------------------------------------------------------
  // Random identifiers

  predicate IsHexDigit(c: char) { '0' <= c <= '9' || 'a' <= c <= 'f' }

  /** value.toString(16) for a nibble. */
  function HexDigit(v: nat): (c: char)
    requires v < 16
    ensures IsHexDigit(c)
  {
    if v < 10 then ('0' as int + v) as char else ('a' as int + v - 10) as char
  }

  /** The character at position i of the UUID template
      "xxxxxxxx-xxxx-4xxx-yxxx-xxxxxxxxxxxx". */
  function TemplateChar(i: int): char {
    if i == 8 || i == 13 || i == 18 || i == 23 then '-'
    else if i == 14 then '4'
    else if i == 19 then 'y'
    else 'x'
  }

  function UuidTemplate(): string { seq(36, TemplateChar) }

  lemma UuidTemplateText()
    ensures UuidTemplate() == "xxxxxxxx-xxxx-4xxx-yxxx-xxxxxxxxxxxx"
  {
  }

  predicate Nibbles(rands: seq<nat>) {
    forall i :: 0 <= i < |rands| ==> rands[i] < 16
  }

  /** template.replace(/[xy]/g, ...): each x becomes a random nibble in
      hexadecimal, each y a random nibble with its top bits forced to 10
      ((rand & 0x3) | 0x8), and every other character stays. rands holds
      one nibble per template position; those at fixed characters are not
      used. */
  function FillTemplate(t: string, rands: seq<nat>): (r: string)
    requires |rands| == |t| && Nibbles(rands)
    ensures |r| == |t|
    ensures forall i :: 0 <= i < |t| && t[i] == 'x' ==> IsHexDigit(r[i])
    ensures forall i :: 0 <= i < |t| && t[i] == 'y' ==> r[i] in {'8', '9', 'a', 'b'}
    ensures forall i :: 0 <= i < |t| && t[i] != 'x' && t[i] != 'y' ==> r[i] == t[i]
  {
    seq(|t|, i requires 0 <= i < |t| =>
      if t[i] == 'x' then HexDigit(rands[i])
      else if t[i] == 'y' then HexDigit(rands[i] % 4 + 8)
      else t[i])
  }

  /** A version-4 UUID without crypto.randomUUID: 36 characters, hyphens
      at 8, 13, 18 and 23, the version digit 4 at 14, the variant digit at
      19 one of 8, 9, a, b, and hexadecimal digits elsewhere. */
  function UuidFallback(rands: seq<nat>): (r: string)
    requires |rands| == 36 && Nibbles(rands)
    ensures |r| == 36
    ensures r[8] == '-' && r[13] == '-' && r[18] == '-' && r[23] == '-'
    ensures r[14] == '4'
    ensures r[19] in {'8', '9', 'a', 'b'}
    ensures forall i :: 0 <= i < 36 && i != 8 && i != 13 && i != 14 && i != 18 && i != 19 && i != 23 ==> IsHexDigit(r[i])
  {
    FillTemplate(UuidTemplate(), rands)
  }

  /** crypto.randomUUID() when the platform has it, else the fallback. */
  function GenerateUuid(cryptoUuid: Option<string>, rands: seq<nat>): (r: string)
    requires cryptoUuid.None? ==> |rands| == 36 && Nibbles(rands)
    ensures cryptoUuid.Some? ==> r == cryptoUuid.value
    ensures cryptoUuid.None? ==> |r| == 36 && r[8] == '-' && r[13] == '-' && r[18] == '-' && r[23] == '-'
    ensures cryptoUuid.None? ==> r[14] == '4' && r[19] in {'8', '9', 'a', 'b'}
  {
    match cryptoUuid
    case Some(u) => u
    case None => UuidFallback(rands)
  }

  /** String(Math.floor(100000 + random * 900000)) for random in [0, 1). */
  function GeneratePin(random: real): (pin: string)
    requires 0.0 <= random < 1.0
    ensures |pin| == 6
    ensures forall i :: 0 <= i < 6 ==> IsDigit(pin[i])
    ensures 100000 <= DigitsValue(pin) <= 999999
  {
    var n := (100000.0 + random * 900000.0).Floor;
    assert 100000 <= n <= 999999;
    NatToStringLength(n, 6);
    NatToStringLengthAtLeast(n, 5);
    DigitsValueOfNatToString(n);
    NatToString(n)
  }

  /** The first eight characters of a key, for display. */
  function ShortId(uuid: Value): (r: string)
    ensures |TextOr(uuid)| >= 8 ==> |r| == 8
    ensures |TextOr(uuid)| < 8 ==> r == TextOr(uuid)
    ensures r <= TextOr(uuid)
  {
    Take(TextOr(uuid), 8)
  }

  // ---------------------------------------------------------------------
  // Get-or-create over storage

  /** The id a get-or-create call works on: String(x || "").trim(). */
  function IdText(raw: Value): string {
    Trim(TextOr(raw))
  }

  /** Whether a slot holds a non-empty string (getItem is truthy). */
  predicate Stored(items: map<string, string>, slot: string) {
    slot in items && items[slot] != ""
  }

  /** One get-or-create call on the stored strings: nothing without storage
      or for a blank id; otherwise the value already in the slot when it is
      a non-empty string, else novo, stored there. Returns the value and the
      storage afterwards. */
  function GetOrCreate(items: map<string, string>, available: bool, prefix: string, raw: Value, novo: string)
    : (r: (string, map<string, string>))
    ensures !available || IdText(raw) == "" ==> r == ("", items)
    ensures available && IdText(raw) != "" && Stored(items, BuildKey(prefix, IdText(raw))) ==>
              r == (items[BuildKey(prefix, IdText(raw))], items)
    ensures available && IdText(raw) != "" && !Stored(items, BuildKey(prefix, IdText(raw))) ==>
              r == (novo, items[BuildKey(prefix, IdText(raw)) := novo])
  {
    if !available then ("", items)
    else
      var id := IdText(raw);
      if id == "" then ("", items)
      else
        var slot := BuildKey(prefix, id);
        if Stored(items, slot) then (items[slot], items)
        else (novo, items[slot := novo])
  }

  /** Only the slot of the id is ever written. */
  lemma GetOrCreateFrame(items: map<string, string>, available: bool, prefix: string, raw: Value, novo: string, k: string)
    requires k != BuildKey(prefix, IdText(raw))
    ensures var r := GetOrCreate(items, available, prefix, raw, novo);
            (k in r.1 <==> k in items) && (k in items ==> r.1[k] == items[k])
  {
  }

  /** A second call for the same id returns what the first returned and
      changes nothing, whatever fresh value it is offered, provided the
      first created a non-empty value. */
  lemma GetOrCreateIdempotent(items: map<string, string>, available: bool, prefix: string, raw: Value,
                              novo: string, novo2: string)
    requires novo != ""
    ensures var first := GetOrCreate(items, available, prefix, raw, novo);
            GetOrCreate(first.1, available, prefix, raw, novo2) == first
  {
  }

  /** The browser's string storage (localStorage.getItem / setItem). */
  class LocalStorage {
    var items: map<string, string>

    constructor (items: map<string, string>)
      ensures this.items == items
    {
      this.items := items;
    }

    /** getItem: null for a missing key, read here as "". */
    function GetItem(key: string): (v: string)
      reads this
      ensures key in items ==> v == items[key]
      ensures key !in items ==> v == ""
    {
      if key in items then items[key] else ""
    }

    method SetItem(key: string, value: string)
      modifies this
      ensures items == old(items)[key := value]
    {
      items := items[key := value];
    }

    /** getOrCreateEventoKey: the event's key, made from a new UUID on the
        first call for that event name or id. */
    method GetOrCreateEventoKey(available: bool, eventoIdOuNome: Value, cryptoUuid: Option<string>, rands: seq<nat>)
        returns (key: string)
      requires cryptoUuid.None? ==> |rands| == 36 && Nibbles(rands)
      modifies this
      ensures (key, items) == GetOrCreate(old(items), available, EVENTO_KEY_PREFIX, eventoIdOuNome, GenerateUuid(cryptoUuid, rands))
    {
      if !available {
        return "";
      }
      var id := IdText(eventoIdOuNome);
      if id == "" {
        return "";
      }
      var slot := BuildKey(EVENTO_KEY_PREFIX, id);
      var existing := GetItem(slot);
      if existing != "" {
        return existing;
      }
      var novo := GenerateUuid(cryptoUuid, rands);
      SetItem(slot, novo);
      key := novo;
    }

    /** getOrCreateEventoPin: the key's PIN, six random digits made on the
        first call for that key. */
    method GetOrCreateEventoPin(available: bool, eventoKey: Value, random: real) returns (pin: string)
      requires 0.0 <= random < 1.0
      modifies this
      ensures (pin, items) == GetOrCreate(old(items), available, EVENTO_PIN_PREFIX, eventoKey, GeneratePin(random))
    {
      if !available {
        return "";
      }
      var key := IdText(eventoKey);
      if key == "" {
        return "";
      }
      var slot := BuildKey(EVENTO_PIN_PREFIX, key);
      var existing := GetItem(slot);
      if existing != "" {
        return existing;
      }
      var novo := GeneratePin(random);
      SetItem(slot, novo);
      pin := novo;
    }
  }

  /** A created PIN is always six digits; a stored one is whatever the
      slot held. */
  lemma CreatedPinIsSixDigits(items: map<string, string>, eventoKey: Value, random: real)
    requires 0.0 <= random < 1.0
    requires IdText(eventoKey) != ""
    requires BuildKey(EVENTO_PIN_PREFIX, IdText(eventoKey)) !in items
    ensures var pin := GetOrCreate(items, true, EVENTO_PIN_PREFIX, eventoKey, GeneratePin(random)).0;
            |pin| == 6 && forall i :: 0 <= i < 6 ==> IsDigit(pin[i])
  {
  }
}
