/**
  Deck compilation: exact validation, a canonical card order, and a
  length-prefixed preimage for the lock digest.
 */
module Deck {
  import opened Wrappers
  import opened Text

  const MAX_CARDS_PER_DECK := 64
  const MAX_DECK_KEY_BYTES := 128
  const MAX_CARD_KEY_BYTES := 128
  const MAX_DEFINITION_REF_BYTES := 256
  const U64_BYTES: nat := 8
  const DIGEST_DOMAIN: seq<byte> := Encode("paraegox.deck-lock") + [0]

  datatype Card = Card(key: string, definition: string)

  datatype DeckSpec = DeckSpec(key: string, cards: seq<Card>)

  datatype DeckLock = DeckLock(key: string, cards: seq<Card>, digest: string)

  datatype Field =
    | DefinitionField(index: nat)
    | DeckKeyField
    | CardKeyField(index: nat)
    | CardDefinitionField(index: nat)

  datatype Reason = Empty | OuterWhitespace | ControlCharacter | TooLong

  datatype CompileError =
    | EmptyDeck
    | TooManyCards(actual: nat)
    | InvalidField(field: Field, reason: Reason)
    | DuplicateCardKey(key: string)
    | UnknownDefinition(card: string, definition: string)

  function FieldFault(value: string, maximum: nat): (fault: Option<Reason>) {
    if value == [] then Some(Empty)
    else if IsWhitespace(value[0]) || IsWhitespace(value[|value| - 1]) then Some(OuterWhitespace)
    else if !NoControls(value) then Some(ControlCharacter)
    else if ByteLen(value) > maximum then Some(TooLong)
    else None
  }

  /** What is wrong with a field, in this order: it is empty, padded, has a control character, or is too long. */
  lemma FieldFaultIsExact(value: string, maximum: nat)
    ensures FieldFault(value, maximum) == Some(Empty) <==> |value| == 0
    ensures FieldFault(value, maximum) == Some(OuterWhitespace) <==>
      |value| > 0 && (IsWhitespace(value[0]) || IsWhitespace(value[|value| - 1]))
    ensures FieldFault(value, maximum) == Some(ControlCharacter) <==>
      && |value| > 0 && !IsWhitespace(value[0]) && !IsWhitespace(value[|value| - 1])
      && exists i :: 0 <= i < |value| && IsControl(value[i])
    ensures FieldFault(value, maximum).None? <==>
      && |value| > 0 && !IsWhitespace(value[0]) && !IsWhitespace(value[|value| - 1])
      && (forall i :: 0 <= i < |value| ==> !IsControl(value[i]))
      && ByteLen(value) <= maximum
  {
  }

  // -------------------------------------------------- which decks compile

  predicate GoodCard(definitions: set<string>, card: Card) {
    && FieldFault(card.key, MAX_CARD_KEY_BYTES).None?
    && FieldFault(card.definition, MAX_DEFINITION_REF_BYTES).None?
    && card.definition in definitions
  }

  predicate DistinctKeys(cards: seq<Card>) {
    forall i, j :: 0 <= i < j < |cards| ==> cards[i].key != cards[j].key
  }

  predicate Compiles(definitions: set<string>, spec: DeckSpec) {
    && FieldFault(spec.key, MAX_DECK_KEY_BYTES).None?
    && 0 < |spec.cards| <= MAX_CARDS_PER_DECK
    && (forall card :: card in spec.cards ==> GoodCard(definitions, card))
    && DistinctKeys(spec.cards)
  }

  /** A deck compiles when its key, and each card's key and definition, are sound, and no two cards share a key. */
  lemma CompilesMeans(definitions: set<string>, spec: DeckSpec)
    ensures Compiles(definitions, spec) <==>
      && FieldFault(spec.key, 128).None?
      && 1 <= |spec.cards| <= 64
      && (forall i :: 0 <= i < |spec.cards| ==>
            && FieldFault(spec.cards[i].key, 128).None?
            && FieldFault(spec.cards[i].definition, 256).None?
            && spec.cards[i].definition in definitions)
      && forall i, j :: 0 <= i < j < |spec.cards| ==> spec.cards[i].key != spec.cards[j].key
  {
    if forall i :: 0 <= i < |spec.cards| ==> GoodCard(definitions, spec.cards[i]) {
      forall card | card in spec.cards ensures GoodCard(definitions, card) {
        var i :| 0 <= i < |spec.cards| && spec.cards[i] == card;
      }
    } else {
      var i :| 0 <= i < |spec.cards| && !GoodCard(definitions, spec.cards[i]);
      assert spec.cards[i] in spec.cards;
    }
  }

  /** What is wrong with card `i`, judged against the cards before it. */
  function CardFault(definitions: set<string>, cards: seq<Card>, i: nat): (fault: Option<CompileError>)
    requires i < |cards|
  {
    var card := cards[i];
    var keyFault := FieldFault(card.key, MAX_CARD_KEY_BYTES);
    var definitionFault := FieldFault(card.definition, MAX_DEFINITION_REF_BYTES);
    if keyFault.Some? then Some(InvalidField(CardKeyField(i), keyFault.value))
    else if definitionFault.Some? then Some(InvalidField(CardDefinitionField(i), definitionFault.value))
    else if exists j :: 0 <= j < i && cards[j].key == card.key then Some(DuplicateCardKey(card.key))
    else if card.definition !in definitions then Some(UnknownDefinition(card.key, card.definition))
    else None
  }

  /** Of several things wrong with a card, the key comes first, then the definition, then a repeated key. */
  lemma CardFaultIsExact(definitions: set<string>, cards: seq<Card>, i: nat)
    requires i < |cards|
    ensures var card := cards[i];
      var repeated := exists j :: 0 <= j < i && cards[j].key == card.key;
      var fault := CardFault(definitions, cards, i);
      if FieldFault(card.key, 128).Some? then
        fault == Some(InvalidField(CardKeyField(i), FieldFault(card.key, 128).value))
      else if FieldFault(card.definition, 256).Some? then
        fault == Some(InvalidField(CardDefinitionField(i), FieldFault(card.definition, 256).value))
      else if repeated then fault == Some(DuplicateCardKey(card.key))
      else if card.definition !in definitions then fault == Some(UnknownDefinition(card.key, card.definition))
      else fault == None
  {
  }

  /** Card `i` is the first with a fault, and `error` names it. */
  ghost predicate FirstFault(definitions: set<string>, cards: seq<Card>, i: nat, error: CompileError) {
    && i < |cards|
    && CardFault(definitions, cards, i) == Some(error)
    && forall j :: 0 <= j < i ==> CardFault(definitions, cards, j).None?
  }

  /** A list of cards resolves exactly when no card in it has a fault. */
  lemma FaultlessIffGood(definitions: set<string>, cards: seq<Card>)
    ensures (forall i :: 0 <= i < |cards| ==> CardFault(definitions, cards, i).None?)
      <==> (forall card :: card in cards ==> GoodCard(definitions, card)) && DistinctKeys(cards)
  {
    if forall i :: 0 <= i < |cards| ==> CardFault(definitions, cards, i).None? {
      forall card | card in cards ensures GoodCard(definitions, card) {
        var k :| 0 <= k < |cards| && cards[k] == card;
        assert CardFault(definitions, cards, k).None?;
      }
      forall i, j | 0 <= i < j < |cards| ensures cards[i].key != cards[j].key {
        assert CardFault(definitions, cards, j).None?;
      }
    } else {
      var i :| 0 <= i < |cards| && CardFault(definitions, cards, i).Some?;
      assert cards[i] in cards;
    }
  }

  // ------------------------------------------------------- the key order

  predicate BytesLess(a: seq<byte>, b: seq<byte>) {
    b != [] && (a == [] || a[0] < b[0] || (a[0] == b[0] && BytesLess(a[1..], b[1..])))
  }

  /** `String::cmp` compares the UTF-8 bytes. */
  predicate KeyLess(a: string, b: string) {
    BytesLess(Encode(a), Encode(b))
  }

  /** The order is lexicographic and ascending: the first difference decides, and a proper prefix comes first. */
  lemma {:induction false} BytesLessIsLexicographic(a: seq<byte>, b: seq<byte>)
    ensures BytesLess(a, b) <==> exists k: nat :: IsFirstDifference(a, b, k) && (k == |a| || a[k] < b[k])
  {
    if a != [] && b != [] && a[0] == b[0] {
      BytesLessIsLexicographic(a[1..], b[1..]);
      forall k: nat | IsFirstDifference(a[1..], b[1..], k) ensures IsFirstDifference(a, b, k + 1) {
        assert forall i :: 0 <= i < k + 1 ==> a[i] == b[i] by {
          assert forall i :: 1 <= i < k + 1 ==> a[i] == a[1..][i - 1] && b[i] == b[1..][i - 1];
        }
      }
      forall k: nat | IsFirstDifference(a, b, k) ensures k > 0 && IsFirstDifference(a[1..], b[1..], k - 1) {
      }
    } else if b != [] {
      assert IsFirstDifference(a, b, 0);
    }
  }

  /** The two agree before position `k`, at which the second one goes on. */
  ghost predicate IsFirstDifference(a: seq<byte>, b: seq<byte>, k: nat) {
    && k <= |a| && k < |b|
    && (forall i :: 0 <= i < k ==> a[i] == b[i])
    && (k < |a| ==> a[k] != b[k])
  }

  lemma {:induction false} BytesTotal(a: seq<byte>, b: seq<byte>)
    ensures BytesLess(a, b) || a == b || BytesLess(b, a)
    ensures !(BytesLess(a, b) && BytesLess(b, a))
    ensures !BytesLess(a, a)
  {
    if a != [] {
      BytesTotal(a[1..], a[1..]);
      if b != [] && a[0] == b[0] {
        BytesTotal(a[1..], b[1..]);
        assert a == [a[0]] + a[1..] && b == [b[0]] + b[1..];
      }
    }
  }

  lemma {:induction false} BytesTransitive(a: seq<byte>, b: seq<byte>, c: seq<byte>)
    requires BytesLess(a, b) && BytesLess(b, c)
    ensures BytesLess(a, c)
  {
    if a != [] && a[0] == b[0] == c[0] {
      BytesTransitive(a[1..], b[1..], c[1..]);
    }
  }

  /** Distinct keys are strictly ordered, one way only. */
  lemma KeyOrderIsTotal(a: string, b: string)
    ensures a != b ==> KeyLess(a, b) != KeyLess(b, a)
    ensures !KeyLess(a, a)
  {
    BytesTotal(Encode(a), Encode(b));
    if Encode(a) == Encode(b) {
      EncodeInjective(a, b);
    }
  }

  predicate Sorted(cards: seq<Card>) {
    forall i, j :: 0 <= i < j < |cards| ==> !KeyLess(cards[j].key, cards[i].key)
  }

  predicate StrictlySorted(cards: seq<Card>) {
    forall i, j :: 0 <= i < j < |cards| ==> KeyLess(cards[i].key, cards[j].key)
  }

  function InsertCard(card: Card, sorted: seq<Card>): (r: seq<Card>)
    ensures multiset(r) == multiset(sorted) + multiset{card}
  {
    if sorted == [] || !KeyLess(sorted[0].key, card.key) then [card] + sorted
    else
      assert sorted == [sorted[0]] + sorted[1..];
      [sorted[0]] + InsertCard(card, sorted[1..])
  }

  lemma {:induction false} InsertCardSorts(card: Card, sorted: seq<Card>)
    requires Sorted(sorted)
    ensures Sorted(InsertCard(card, sorted))
  {
    var r := InsertCard(card, sorted);
    if sorted == [] {
    } else if !KeyLess(sorted[0].key, card.key) {
      forall j | 0 <= j < |sorted| ensures !KeyLess(sorted[j].key, card.key) {
        if KeyLess(sorted[j].key, card.key) {
          BytesTotal(Encode(sorted[0].key), Encode(sorted[j].key));
          if KeyLess(sorted[0].key, sorted[j].key) {
            BytesTransitive(Encode(sorted[0].key), Encode(sorted[j].key), Encode(card.key));
          }
        }
      }
    } else {
      InsertCardSorts(card, sorted[1..]);
      BytesTotal(Encode(sorted[0].key), Encode(card.key));
      forall x | x in r[1..] ensures !KeyLess(x.key, sorted[0].key) {
        assert x in multiset(r[1..]);
      }
    }
  }

  /**
    `sort_unstable_by` on the key.  Only the contract of the library routine is used:
    some arrangement of the same cards, in order.
   */
  method SortUnstable(cards: seq<Card>) returns (sorted: seq<Card>)
    ensures Sorted(sorted) && multiset(sorted) == multiset(cards)
  {
    sorted := [];
    for i := 0 to |cards|
      invariant Sorted(sorted) && multiset(sorted) == multiset(cards[..i])
    {
      InsertCardSorts(cards[i], sorted);
      sorted := InsertCard(cards[i], sorted);
      assert cards[..i + 1] == cards[..i] + [cards[i]];
    }
    assert cards[..|cards|] == cards;
  }

  // ------------------------------------------------- canonical arrangement

  function Without(cards: seq<Card>, k: nat): (r: seq<Card>)
    requires k < |cards|
    ensures multiset(r) + multiset{cards[k]} == multiset(cards)
  {
    assert cards == cards[..k] + [cards[k]] + cards[k + 1..];
    cards[..k] + cards[k + 1..]
  }

  lemma CancelOne(a: multiset<Card>, b: multiset<Card>, card: Card)
    requires a + multiset{card} == b + multiset{card}
    ensures a == b
  {
    forall x ensures a[x] == b[x] {
      assert (a + multiset{card})[x] == (b + multiset{card})[x];
    }
  }

  lemma IndexOf(cards: seq<Card>, card: Card) returns (k: nat)
    requires card in multiset(cards)
    ensures k < |cards| && cards[k] == card
  {
    assert card in cards;
    k :| k < |cards| && cards[k] == card;
  }

  lemma WithoutKeepsDistinct(s: seq<Card>, k: nat)
    requires DistinctKeys(s) && k < |s|
    ensures DistinctKeys(Without(s, k))
    ensures forall card :: card in Without(s, k) ==> card.key != s[k].key
  {
    var rest := Without(s, k);
    assert forall m :: 0 <= m < |rest| ==> rest[m] == s[if m < k then m else m + 1];
  }

  lemma {:induction false} PermutedKeysDistinct(s: seq<Card>, t: seq<Card>)
    requires multiset(s) == multiset(t) && DistinctKeys(s)
    ensures DistinctKeys(t)
    decreases |t|
  {
    if t != [] {
      assert t == [t[0]] + t[1..];
      var k := IndexOf(s, t[0]);
      var rest := Without(s, k);
      WithoutKeepsDistinct(s, k);
      CancelOne(multiset(rest), multiset(t[1..]), t[0]);
      PermutedKeysDistinct(rest, t[1..]);
      forall j | 1 <= j < |t| ensures t[j].key != t[0].key {
        assert t[j] in multiset(t[1..]);
        assert t[j] in multiset(rest);
      }
    }
  }

  lemma SortedDistinctIsStrict(cards: seq<Card>)
    requires Sorted(cards) && DistinctKeys(cards)
    ensures StrictlySorted(cards)
  {
    forall i, j | 0 <= i < j < |cards| ensures KeyLess(cards[i].key, cards[j].key) {
      KeyOrderIsTotal(cards[i].key, cards[j].key);
    }
  }

  /** A set of cards has one strictly sorted arrangement. */
  lemma {:induction false} ArrangementIsUnique(s: seq<Card>, t: seq<Card>)
    requires StrictlySorted(s) && StrictlySorted(t) && multiset(s) == multiset(t)
    ensures s == t
    decreases |s|
  {
    if s == [] {
      assert multiset(t) == multiset{};
    } else {
      assert s == [s[0]] + s[1..];
      assert t != [] by { assert s[0] in multiset(t); }
      assert t == [t[0]] + t[1..];
      var i := IndexOf(s, t[0]);
      var j := IndexOf(t, s[0]);
      KeyOrderIsTotal(s[0].key, t[0].key);
      assert s[0] == t[0];
      assert multiset(s) == multiset(s[1..]) + multiset{s[0]};
      assert multiset(t) == multiset(t[1..]) + multiset{s[0]};
      CancelOne(multiset(s[1..]), multiset(t[1..]), s[0]);
      ArrangementIsUnique(s[1..], t[1..]);
    }
  }

  // ------------------------------------------------------- the preimage

  function Power256(width: nat): (p: nat)
    ensures p >= 1
  {
    if width == 0 then 1 else 0x100 * Power256(width - 1)
  }

  /** The low `width` bytes of a number, most significant first. */
  function BigEndian(n: nat, width: nat): (bytes: seq<byte>)
    ensures |bytes| == width
    decreases width
  {
    if width == 0 then [] else BigEndian(n / 0x100, width - 1) + [n % 0x100]
  }

  /** `(n as u64).to_be_bytes()`. */
  function BeU64(n: nat): (bytes: seq<byte>)
    ensures |bytes| == 8
  {
    BigEndian(n, U64_BYTES)
  }

  function DigestField(value: string): (bytes: seq<byte>) {
    BeU64(|Encode(value)|) + Encode(value)
  }

  function CardFields(cards: seq<Card>): (bytes: seq<byte>) {
    if cards == [] then []
    else DigestField(cards[0].key) + (DigestField(cards[0].definition) + CardFields(cards[1..]))
  }

  function Preimage(key: string, cards: seq<Card>): (bytes: seq<byte>) {
    DIGEST_DOMAIN + (DigestField(key) + (BeU64(|cards|) + CardFields(cards)))
  }

  lemma SameSplit<T>(a: seq<T>, b: seq<T>, restA: seq<T>, restB: seq<T>)
    requires |a| == |b| && a + restA == b + restB
    ensures a == b && restA == restB
  {
    assert (a + restA)[..|a|] == a && (b + restB)[..|b|] == b;
    assert (a + restA)[|a|..] == restA && (b + restB)[|b|..] == restB;
  }

  lemma {:induction false} BigEndianInjective(a: nat, b: nat, width: nat)
    requires a < Power256(width) && b < Power256(width) && BigEndian(a, width) == BigEndian(b, width)
    ensures a == b
  {
    if width != 0 {
      var x, y := BigEndian(a, width), BigEndian(b, width);
      assert x[width - 1] == a % 0x100 && y[width - 1] == b % 0x100;
      assert x[..width - 1] == BigEndian(a / 0x100, width - 1);
      assert y[..width - 1] == BigEndian(b / 0x100, width - 1);
      BigEndianInjective(a / 0x100, b / 0x100, width - 1);
    }
  }

  /** The number that bytes stand for, the first being the most significant. */
  function ReadBigEndian(bytes: seq<byte>): (n: nat) {
    if bytes == [] then 0
    else ReadBigEndian(bytes[..|bytes| - 1]) * 0x100 + bytes[|bytes| - 1]
  }

  lemma {:induction false} BigEndianReads(n: nat, width: nat)
    requires n < Power256(width)
    ensures ReadBigEndian(BigEndian(n, width)) == n
  {
    if width > 0 {
      BigEndianReads(n / 0x100, width - 1);
      assert BigEndian(n, width)[..width - 1] == BigEndian(n / 0x100, width - 1);
    }
  }

  /** Reading one length-prefixed field from the front: its bytes, and what follows. */
  function ReadField(bytes: seq<byte>): (r: Option<(seq<byte>, seq<byte>)>) {
    if |bytes| < 8 then None
    else
      var size := ReadBigEndian(bytes[..8]);
      if |bytes| - 8 < size then None else Some((bytes[8..8 + size], bytes[8 + size..]))
  }

  /** Reading some cards, each a key and then a definition. */
  function ReadCards(bytes: seq<byte>, count: nat): (r: Option<seq<(seq<byte>, seq<byte>)>>) {
    if count == 0 then (if bytes == [] then Some([]) else None)
    else
      var key := ReadField(bytes);
      if key.None? then None
      else
        var definition := ReadField(key.value.1);
        if definition.None? then None
        else
          var rest := ReadCards(definition.value.1, count - 1);
          if rest.None? then None else Some([(key.value.0, definition.value.0)] + rest.value)
  }

  lemma DigestFieldReads(value: string, rest: seq<byte>)
    requires ByteLen(value) < Power256(U64_BYTES)
    ensures ReadField(DigestField(value) + rest) == Some((Encode(value), rest))
  {
    EncodeLength(value);
    BigEndianReads(|Encode(value)|, U64_BYTES);
    var bytes := DigestField(value) + rest;
    assert bytes[..8] == BeU64(|Encode(value)|);
  }

  /** The cards of a preimage can be read back: for each in order, the bytes of its key and of its definition. */
  lemma {:induction false} CardFieldsRead(cards: seq<Card>)
    requires forall card :: card in cards ==> Short(card)
    ensures ReadCards(CardFields(cards), |cards|).Some?
    ensures var read := ReadCards(CardFields(cards), |cards|).value;
      && |read| == |cards|
      && forall i :: 0 <= i < |cards| ==> read[i] == (Encode(cards[i].key), Encode(cards[i].definition))
  {
    if cards != [] {
      Power256Of8();
      assert Short(cards[0]);
      var rest := CardFields(cards[1..]);
      DigestFieldReads(cards[0].key, DigestField(cards[0].definition) + rest);
      DigestFieldReads(cards[0].definition, rest);
      CardFieldsRead(cards[1..]);
    }
  }

  /** Behind any domain, a deck is its key as a field, the number of its cards in eight bytes, and the cards. */
  lemma DeckReads(domain: seq<byte>, key: string, cards: seq<Card>)
    requires ByteLen(key) <= MAX_DECK_KEY_BYTES && |cards| <= MAX_CARDS_PER_DECK
    ensures var bytes := domain + (DigestField(key) + (BeU64(|cards|) + CardFields(cards)));
      && domain <= bytes
      && var field := ReadField(bytes[|domain|..]);
         && field.Some? && field.value.0 == Encode(key)
         && |field.value.1| >= 8 && ReadBigEndian(field.value.1[..8]) == |cards|
         && field.value.1[8..] == CardFields(cards)
  {
    Power256Of8();
    var tail := BeU64(|cards|) + CardFields(cards);
    DigestFieldReads(key, tail);
    BigEndianReads(|cards|, U64_BYTES);
    var bytes := domain + (DigestField(key) + tail);
    assert bytes[|domain|..] == DigestField(key) + tail;
    assert tail[..8] == BeU64(|cards|) && tail[8..] == CardFields(cards);
  }

  /** So a preimage can be read back from behind its domain: the deck key, the number of cards, and the cards. */
  lemma PreimageLayout(key: string, cards: seq<Card>)
    requires ByteLen(key) <= MAX_DECK_KEY_BYTES && |cards| <= MAX_CARDS_PER_DECK
    ensures var bytes := Preimage(key, cards);
      && DIGEST_DOMAIN <= bytes
      && var field := ReadField(bytes[|DIGEST_DOMAIN|..]);
         && field.Some? && field.value.0 == Encode(key)
         && |field.value.1| >= 8 && ReadBigEndian(field.value.1[..8]) == |cards|
         && field.value.1[8..] == CardFields(cards)
  {
    DeckReads(DIGEST_DOMAIN, key, cards);
  }

  /** A field is self-delimiting: it can be cut from the front of any longer byte sequence. */
  lemma DigestFieldPrefixFree(v: string, w: string, restV: seq<byte>, restW: seq<byte>)
    requires ByteLen(v) < Power256(U64_BYTES) && ByteLen(w) < Power256(U64_BYTES)
    requires DigestField(v) + restV == DigestField(w) + restW
    ensures v == w && restV == restW
  {
    EncodeLength(v);
    EncodeLength(w);
    var sizeV, sizeW := BeU64(|Encode(v)|), BeU64(|Encode(w)|);
    Assoc(sizeV, Encode(v), restV);
    Assoc(sizeW, Encode(w), restW);
    SameSplit(sizeV, sizeW, Encode(v) + restV, Encode(w) + restW);
    BigEndianInjective(|Encode(v)|, |Encode(w)|, U64_BYTES);
    SameSplit(Encode(v), Encode(w), restV, restW);
    EncodeInjective(v, w);
  }

  predicate Short(card: Card) {
    ByteLen(card.key) <= MAX_CARD_KEY_BYTES && ByteLen(card.definition) <= MAX_DEFINITION_REF_BYTES
  }

  lemma Power256Of8()
    ensures Power256(U64_BYTES) == 0x1_0000_0000_0000_0000
  {
    assert Power256(2) == 0x1_0000;
    assert Power256(4) == 0x1_0000_0000;
    assert Power256(6) == 0x1_0000_0000_0000;
  }

  lemma OneCardPrefixFree(a: Card, b: Card, restA: seq<byte>, restB: seq<byte>)
    requires Short(a) && Short(b)
    requires DigestField(a.key) + (DigestField(a.definition) + restA)
      == DigestField(b.key) + (DigestField(b.definition) + restB)
    ensures a == b && restA == restB
  {
    Power256Of8();
    DigestFieldPrefixFree(a.key, b.key, DigestField(a.definition) + restA, DigestField(b.definition) + restB);
    DigestFieldPrefixFree(a.definition, b.definition, restA, restB);
  }

  lemma {:induction false} CardFieldsInjective(s: seq<Card>, t: seq<Card>)
    requires |s| == |t| && CardFields(s) == CardFields(t)
    requires forall i :: 0 <= i < |s| ==> Short(s[i]) && Short(t[i])
    ensures s == t
  {
    if s != [] {
      assert Short(s[0]) && Short(t[0]);
      OneCardPrefixFree(s[0], t[0], CardFields(s[1..]), CardFields(t[1..]));
      CardFieldsInjective(s[1..], t[1..]);
      assert s == [s[0]] + s[1..] && t == [t[0]] + t[1..];
    }
  }

  /** The preimage of a deck determines its key and its card list. */
  lemma PreimageInjective(key: string, cards: seq<Card>, otherKey: string, otherCards: seq<Card>)
    requires ByteLen(key) <= MAX_DECK_KEY_BYTES && ByteLen(otherKey) <= MAX_DECK_KEY_BYTES
    requires |cards| <= MAX_CARDS_PER_DECK && |otherCards| <= MAX_CARDS_PER_DECK
    requires forall card :: card in cards || card in otherCards ==> Short(card)
    requires Preimage(key, cards) == Preimage(otherKey, otherCards)
    ensures key == otherKey && cards == otherCards
  {
    Power256Of8();
    var tail := BeU64(|cards|) + CardFields(cards);
    var otherTail := BeU64(|otherCards|) + CardFields(otherCards);
    SameSplit(DIGEST_DOMAIN, DIGEST_DOMAIN, DigestField(key) + tail, DigestField(otherKey) + otherTail);
    DigestFieldPrefixFree(key, otherKey, tail, otherTail);
    SameSplit(BeU64(|cards|), BeU64(|otherCards|), CardFields(cards), CardFields(otherCards));
    BigEndianInjective(|cards|, |otherCards|, U64_BYTES);
    forall i | 0 <= i < |cards| ensures Short(cards[i]) && Short(otherCards[i]) {
      assert cards[i] in cards && otherCards[i] in otherCards;
    }
    CardFieldsInjective(cards, otherCards);
  }

  // --------------------------------------------------------------- digests

  /** `{byte:02x}`. */
  function HexByte(b: byte): (s: string)
    ensures |s| == 2
  {
    [HexDigit(b / 16), HexDigit(b % 16)]
  }

  function Hex(bytes: seq<byte>): (s: string)
    ensures |s| == 2 * |bytes|
  {
    if bytes == [] then [] else HexByte(bytes[0]) + Hex(bytes[1..])
  }

  /** Two digits for each byte, the high one first. */
  lemma {:induction false} HexReads(bytes: seq<byte>)
    ensures forall i :: 0 <= i < |bytes| ==>
      && HexValue(Hex(bytes)[2 * i]) == Some(bytes[i] / 16)
      && HexValue(Hex(bytes)[2 * i + 1]) == Some(bytes[i] % 16)
  {
    if bytes != [] {
      HexDigitReads(bytes[0] / 16);
      HexDigitReads(bytes[0] % 16);
      HexReads(bytes[1..]);
      var rest := Hex(bytes[1..]);
      forall i | 1 <= i < |bytes|
        ensures Hex(bytes)[2 * i] == rest[2 * (i - 1)] && Hex(bytes)[2 * i + 1] == rest[2 * (i - 1) + 1]
      {
      }
    }
  }

  lemma HexDigitInjective(m: nat, n: nat)
    requires m < 16 && n < 16 && HexDigit(m) == HexDigit(n)
    ensures m == n
  {
  }

  lemma HexByteInjective(a: byte, b: byte)
    ensures HexByte(a) == HexByte(b) ==> a == b
  {
    if HexByte(a) == HexByte(b) {
      assert HexByte(a)[0] == HexByte(b)[0] && HexByte(a)[1] == HexByte(b)[1];
      HexDigitInjective(a / 16, b / 16);
      HexDigitInjective(a % 16, b % 16);
    }
  }

  lemma {:induction false} HexInjective(a: seq<byte>, b: seq<byte>)
    requires Hex(a) == Hex(b)
    ensures a == b
  {
    assert |a| == |b|;
    if a != [] {
      SameSplit(HexByte(a[0]), HexByte(b[0]), Hex(a[1..]), Hex(b[1..]));
      HexByteInjective(a[0], b[0]);
      HexInjective(a[1..], b[1..]);
      assert a == [a[0]] + a[1..] && b == [b[0]] + b[1..];
    }
  }

  /** `deck_digest`, over any 32-byte hash function. */
  method DeckDigest(hash: seq<byte> -> seq<byte>, key: string, cards: seq<Card>) returns (digest: string)
    ensures digest == Hex(hash(Preimage(key, cards)))
  {
    var hasher := DIGEST_DOMAIN;
    hasher := hasher + DigestField(key);
    hasher := hasher + BeU64(|cards|);
    Assoc(DIGEST_DOMAIN + DigestField(key), BeU64(|cards|), CardFields(cards));
    Assoc(DIGEST_DOMAIN, DigestField(key), BeU64(|cards|) + CardFields(cards));
    assert cards[0..] == cards;
    for i := 0 to |cards|
      invariant hasher + CardFields(cards[i..]) == Preimage(key, cards)
    {
      assert cards[i..][1..] == cards[i + 1..];
      var field, definition := DigestField(cards[i].key), DigestField(cards[i].definition);
      Assoc(hasher + field, definition, CardFields(cards[i + 1..]));
      Assoc(hasher, field, definition + CardFields(cards[i + 1..]));
      hasher := hasher + field;
      hasher := hasher + definition;
    }
    assert hasher + [] == hasher;
    digest := WriteHex(hash(hasher));
  }

  method WriteHex(bytes: seq<byte>) returns (digest: string)
    ensures digest == Hex(bytes)
  {
    digest := "";
    assert bytes[0..] == bytes;
    for i := 0 to |bytes|
      invariant digest + Hex(bytes[i..]) == Hex(bytes)
    {
      assert bytes[i..][1..] == bytes[i + 1..];
      Assoc(digest, HexByte(bytes[i]), Hex(bytes[i + 1..]));
      digest := digest + HexByte(bytes[i]);
    }
    assert digest + [] == digest;
  }

  // -------------------------------------------------------------- compiling

  /** `lock` is a result of compiling `spec`. */
  ghost predicate IsLock(hash: seq<byte> -> seq<byte>, spec: DeckSpec, lock: DeckLock) {
    && lock.key == spec.key
    && StrictlySorted(lock.cards)
    && multiset(lock.cards) == multiset(spec.cards)
    && lock.digest == Hex(hash(Preimage(lock.key, lock.cards)))
  }

  /** `DeckCompiler::new`: the exact definitions a composition accepts. */
  method NewCompiler(definitions: seq<string>) returns (r: Result<set<string>, CompileError>)
    ensures r.Ok? <==> forall i :: 0 <= i < |definitions| ==> FieldFault(definitions[i], MAX_DEFINITION_REF_BYTES).None?
    ensures r.Ok? ==> r.value == (set d | d in definitions)
    ensures r.Err? ==> exists i ::
        && 0 <= i < |definitions|
        && FieldFault(definitions[i], MAX_DEFINITION_REF_BYTES).Some?
        && r.error == InvalidField(DefinitionField(i), FieldFault(definitions[i], MAX_DEFINITION_REF_BYTES).value)
        && forall j :: 0 <= j < i ==> FieldFault(definitions[j], MAX_DEFINITION_REF_BYTES).None?
  {
    var accepted := {};
    for i := 0 to |definitions|
      invariant accepted == set d | d in definitions[..i]
      invariant forall j :: 0 <= j < i ==> FieldFault(definitions[j], MAX_DEFINITION_REF_BYTES).None?
    {
      var fault := FieldFault(definitions[i], MAX_DEFINITION_REF_BYTES);
      if fault.Some? {
        return Err(InvalidField(DefinitionField(i), fault.value));
      }
      assert definitions[..i + 1] == definitions[..i] + [definitions[i]];
      accepted := accepted + {definitions[i]};
    }
    assert definitions[..|definitions|] == definitions;
    return Ok(accepted);
  }

  /** The validation loop: the same cards, or the first fault in input order. */
  method ResolveCards(definitions: set<string>, specCards: seq<Card>) returns (r: Result<seq<Card>, CompileError>)
    ensures r.Ok? <==> (forall card :: card in specCards ==> GoodCard(definitions, card)) && DistinctKeys(specCards)
    ensures r.Ok? ==> r.value == specCards
    ensures r.Err? ==> exists i :: FirstFault(definitions, specCards, i, r.error)
  {
    var cardKeys: set<string> := {};
    var cards: seq<Card> := [];
    FaultlessIffGood(definitions, specCards);
    for i := 0 to |specCards|
      invariant cards == specCards[..i]
      invariant cardKeys == set card | card in cards :: card.key
      invariant forall j :: 0 <= j < i ==> CardFault(definitions, specCards, j).None?
    {
      var card := specCards[i];
      assert card.key in cardKeys <==> exists j :: 0 <= j < i && specCards[j].key == card.key;
      var badKey := FieldFault(card.key, MAX_CARD_KEY_BYTES);
      if badKey.Some? {
        assert FirstFault(definitions, specCards, i, InvalidField(CardKeyField(i), badKey.value));
        return Err(InvalidField(CardKeyField(i), badKey.value));
      }
      var badDefinition := FieldFault(card.definition, MAX_DEFINITION_REF_BYTES);
      if badDefinition.Some? {
        assert FirstFault(definitions, specCards, i, InvalidField(CardDefinitionField(i), badDefinition.value));
        return Err(InvalidField(CardDefinitionField(i), badDefinition.value));
      }
      if card.key in cardKeys {
        assert FirstFault(definitions, specCards, i, DuplicateCardKey(card.key));
        return Err(DuplicateCardKey(card.key));
      }
      cardKeys := cardKeys + {card.key};
      if card.definition !in definitions {
        assert FirstFault(definitions, specCards, i, UnknownDefinition(card.key, card.definition));
        return Err(UnknownDefinition(card.key, card.definition));
      }
      cards := cards + [card];
    }
    assert cards == specCards;
    return Ok(cards);
  }

  method Compile(definitions: set<string>, hash: seq<byte> -> seq<byte>, spec: DeckSpec)
    returns (r: Result<DeckLock, CompileError>)
    ensures r.Ok? <==> Compiles(definitions, spec)
    ensures r.Ok? ==> IsLock(hash, spec, r.value)
    ensures r.Ok? ==>
      && r.value.key == spec.key && multiset(r.value.cards) == multiset(spec.cards)
      && (forall i, j :: 0 <= i < j < |r.value.cards| ==> KeyLess(r.value.cards[i].key, r.value.cards[j].key))
      && r.value.digest == Hex(hash(Preimage(r.value.key, r.value.cards)))
    ensures r.Err? ==>
      var keyFault := FieldFault(spec.key, MAX_DECK_KEY_BYTES);
      if keyFault.Some? then r.error == InvalidField(DeckKeyField, keyFault.value)
      else if spec.cards == [] then r.error == EmptyDeck
      else if |spec.cards| > MAX_CARDS_PER_DECK then r.error == TooManyCards(|spec.cards|)
      else exists i :: FirstFault(definitions, spec.cards, i, r.error)
  {
    var keyFault := FieldFault(spec.key, MAX_DECK_KEY_BYTES);
    if keyFault.Some? {
      return Err(InvalidField(DeckKeyField, keyFault.value));
    }
    if spec.cards == [] {
      return Err(EmptyDeck);
    }
    if |spec.cards| > MAX_CARDS_PER_DECK {
      return Err(TooManyCards(|spec.cards|));
    }
    var resolved := ResolveCards(definitions, spec.cards);
    if resolved.Err? {
      return Err(resolved.error);
    }
    var cards := SortUnstable(resolved.value);
    PermutedKeysDistinct(spec.cards, cards);
    SortedDistinctIsStrict(cards);
    var digest := DeckDigest(hash, spec.key, cards);
    return Ok(DeckLock(spec.key, cards, digest));
  }

  lemma SameElements(s: seq<Card>, t: seq<Card>)
    requires multiset(s) == multiset(t)
    ensures forall card :: card in s <==> card in t
    ensures |s| == |t|
  {
    forall card ensures card in s <==> card in t {
      assert card in multiset(s) <==> card in multiset(t);
    }
    assert |multiset(s)| == |multiset(t)|;
  }

  /** Reordering the cards of a spec changes neither whether it compiles nor any part of its lock. */
  lemma PermutationInvariance(
    definitions: set<string>, hash: seq<byte> -> seq<byte>, spec: DeckSpec, permuted: DeckSpec)
    requires spec.key == permuted.key && multiset(spec.cards) == multiset(permuted.cards)
    ensures Compiles(definitions, spec) <==> Compiles(definitions, permuted)
    ensures forall a, b :: IsLock(hash, spec, a) && IsLock(hash, permuted, b) ==> a == b
  {
    SameElements(spec.cards, permuted.cards);
    if DistinctKeys(spec.cards) {
      PermutedKeysDistinct(spec.cards, permuted.cards);
    }
    if DistinctKeys(permuted.cards) {
      PermutedKeysDistinct(permuted.cards, spec.cards);
    }
    forall a, b | IsLock(hash, spec, a) && IsLock(hash, permuted, b) ensures a == b {
      ArrangementIsUnique(a.cards, b.cards);
    }
  }

  /** Two compiled decks hash the same bytes exactly when they are the same deck up to card order. */
  lemma PreimageIsCanonical(
    definitions: set<string>, hash: seq<byte> -> seq<byte>, a: DeckSpec, b: DeckSpec, lockA: DeckLock, lockB: DeckLock)
    requires Compiles(definitions, a) && Compiles(definitions, b)
    requires IsLock(hash, a, lockA) && IsLock(hash, b, lockB)
    ensures Preimage(lockA.key, lockA.cards) == Preimage(lockB.key, lockB.cards)
      <==> (a.key == b.key && multiset(a.cards) == multiset(b.cards))
  {
    if Preimage(lockA.key, lockA.cards) == Preimage(lockB.key, lockB.cards) {
      LockIsShort(definitions, a, lockA);
      LockIsShort(definitions, b, lockB);
      PreimageInjective(lockA.key, lockA.cards, lockB.key, lockB.cards);
    }
    if a.key == b.key && multiset(a.cards) == multiset(b.cards) {
      ArrangementIsUnique(lockA.cards, lockB.cards);
    }
  }

  lemma LockIsShort(definitions: set<string>, spec: DeckSpec, lock: DeckLock)
    requires Compiles(definitions, spec)
    requires lock.key == spec.key && multiset(lock.cards) == multiset(spec.cards)
    ensures ByteLen(lock.key) <= MAX_DECK_KEY_BYTES && |lock.cards| <= MAX_CARDS_PER_DECK
    ensures forall card :: card in lock.cards ==> Short(card)
  {
    SameElements(spec.cards, lock.cards);
    forall card | card in lock.cards ensures Short(card) {
      assert GoodCard(definitions, card);
    }
  }

  /** Unless the hash collides on the two preimages, equal digests mean equal locks. */
  lemma DigestIdentifiesLock(
    definitions: set<string>, hash: seq<byte> -> seq<byte>, a: DeckSpec, b: DeckSpec, lockA: DeckLock, lockB: DeckLock)
    requires Compiles(definitions, a) && Compiles(definitions, b)
    requires IsLock(hash, a, lockA) && IsLock(hash, b, lockB)
    requires lockA.digest == lockB.digest && lockA != lockB
    ensures Preimage(lockA.key, lockA.cards) != Preimage(lockB.key, lockB.cards)
    ensures hash(Preimage(lockA.key, lockA.cards)) == hash(Preimage(lockB.key, lockB.cards))
  {
    HexInjective(hash(Preimage(lockA.key, lockA.cards)), hash(Preimage(lockB.key, lockB.cards)));
    PreimageIsCanonical(definitions, hash, a, b, lockA, lockB);
    if Preimage(lockA.key, lockA.cards) == Preimage(lockB.key, lockB.cards) {
      ArrangementIsUnique(lockA.cards, lockB.cards);
    }
  }
}
