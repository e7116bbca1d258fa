/** A musical direction (Coda, Segno, D.C., ... ) anchored at a position of a
    system.  Each of its at most three symbols is packed into 16 bits:
    bits 8-15 hold the symbol type, bits 6-7 the symbol that must be active
    for the direction to fire, bits 0-5 the repeat number that must be
    active (0 = none). */
module Directions {

  datatype Option<T> = None | Some(value: T)

  // Position constants
  const DEFAULT_POSITION: nat := 0
  const MIN_POSITION: nat := 0
  const MAX_POSITION: nat := 255

  // Symbol constants
  const MAX_SYMBOLS: nat := 3
  const NUM_SYMBOL_TYPES: bv8 := 19

  // Repeat number constants
  const MIN_REPEAT_NUMBER: bv8 := 0
  const MAX_REPEAT_NUMBER: bv8 := 24

  // Symbol types, in the order of the text table
  const CODA: bv8 := 0
  const DOUBLE_CODA: bv8 := 1
  const SEGNO: bv8 := 2
  const SEGNO_SEGNO: bv8 := 3
  const FINE: bv8 := 4
  const DA_CAPO: bv8 := 5
  const DAL_SEGNO: bv8 := 6
  const DAL_SEGNO_SEGNO: bv8 := 7
  const TO_CODA: bv8 := 8
  const TO_DOUBLE_CODA: bv8 := 9
  const DA_CAPO_AL_CODA: bv8 := 10
  const DA_CAPO_AL_DOUBLE_CODA: bv8 := 11
  const DAL_SEGNO_AL_CODA: bv8 := 12
  const DAL_SEGNO_AL_DOUBLE_CODA: bv8 := 13
  const DAL_SEGNO_SEGNO_AL_CODA: bv8 := 14
  const DAL_SEGNO_SEGNO_AL_DOUBLE_CODA: bv8 := 15
  const DA_CAPO_AL_FINE: bv8 := 16
  const DAL_SEGNO_AL_FINE: bv8 := 17
  const DAL_SEGNO_SEGNO_AL_FINE: bv8 := 18

  // Active symbols (the navigation state a symbol may require)
  const ACTIVE_NONE: bv8 := 0
  const ACTIVE_DA_CAPO: bv8 := 1
  const ACTIVE_DAL_SEGNO: bv8 := 2
  const ACTIVE_DAL_SEGNO_SEGNO: bv8 := 3

  // The bit slots implied by the shifts of SetSymbol
  const SYMBOL_TYPE_MASK: bv16 := 0xFF00
  const ACTIVE_SYMBOL_MASK: bv16 := 0x00C0
  const REPEAT_NUMBER_MASK: bv16 := 0x003F

  /** Text of each symbol type, indexed by the type. */
  const DIRECTION_TEXT: seq<string> := [
    "Coda", "Double Coda", "Segno", "Segno Segno",
    "Fine", "D.C.", "D.S.", "D.S.S.", "To Coda",
    "To Dbl. Coda", "D.C. al Coda", "D.C. al Dbl. Coda",
    "D.S. al Coda", "D.S. al Dbl. Coda", "D.S.S. al Coda",
    "D.S.S. al Dbl. Coda", "D.C. al Fine", "D.S. al Fine",
    "D.S.S. al Fine"
  ]

  predicate IsValidPosition(position: nat) {
    MIN_POSITION <= position <= MAX_POSITION
  }

  predicate IsValidSymbolType(symbolType: bv8) {
    symbolType < NUM_SYMBOL_TYPES
  }

  predicate IsValidActiveSymbol(activeSymbol: bv8) {
    activeSymbol <= ACTIVE_DAL_SEGNO_SEGNO
  }

  predicate IsValidRepeatNumber(repeatNumber: bv8) {
    MIN_REPEAT_NUMBER <= repeatNumber <= MAX_REPEAT_NUMBER
  }

  /** The three fields of one packed symbol. */
  datatype SymbolFields = SymbolFields(symbolType: bv8, activeSymbol: bv8, repeatNumber: bv8)

  predicate ValidFields(f: SymbolFields) {
    IsValidSymbolType(f.symbolType) && IsValidActiveSymbol(f.activeSymbol) && IsValidRepeatNumber(f.repeatNumber)
  }

  /** Packs the fields as SetSymbol does. */
  function EncodeSymbol(f: SymbolFields): bv16 {
    ((f.symbolType as bv16) << 8) | ((f.activeSymbol as bv16) << 6) | (f.repeatNumber as bv16)
  }

  /** Unpacks a symbol as GetSymbol does. */
  function DecodeSymbol(symbol: bv16): SymbolFields {
    SymbolFields(((symbol & SYMBOL_TYPE_MASK) >> 8) as bv8,
                 ((symbol & ACTIVE_SYMBOL_MASK) >> 6) as bv8,
                 (symbol & REPEAT_NUMBER_MASK) as bv8)
  }

  /** Decoding an encoded symbol gives back its fields, when they are valid. */
  lemma DecodeEncode(f: SymbolFields)
    requires ValidFields(f)
    ensures DecodeSymbol(EncodeSymbol(f)) == f
  {
  }

  /** The three slots cover all 16 bits, so re-encoding any stored symbol gives it back. */
  lemma EncodeDecode(symbol: bv16)
    ensures EncodeSymbol(DecodeSymbol(symbol)) == symbol
  {
  }

  /** Two valid field triples encode equally only if they are equal. */
  lemma EncodeInjective(f: SymbolFields, g: SymbolFields)
    requires ValidFields(f) && ValidFields(g)
    ensures EncodeSymbol(f) == EncodeSymbol(g) <==> f == g
  {
    if EncodeSymbol(f) == EncodeSymbol(g) {
      DecodeEncode(f);
      DecodeEncode(g);
    }
  }

  /** GetSymbol over the symbol array: the fields of symbol `index`, or None for an invalid index. */
  function SymbolAt(symbols: seq<bv16>, index: nat): (r: Option<SymbolFields>)
    ensures r.Some? <==> index < |symbols|
    ensures r.Some? ==> EncodeSymbol(r.value) == symbols[index]
  {
    if index < |symbols| then
      EncodeDecode(symbols[index]);
      Some(DecodeSymbol(symbols[index]))
    else None
  }

  /** GetText over the symbol array: the table entry of the stored type, or "" when
      the index or the stored type is invalid. */
  function TextAt(symbols: seq<bv16>, index: nat): (r: string)
    ensures r != "" <==> index < |symbols| && IsValidSymbolType(DecodeSymbol(symbols[index]).symbolType)
    ensures r != "" ==> r == DIRECTION_TEXT[DecodeSymbol(symbols[index]).symbolType as int]
  {
    match SymbolAt(symbols, index)
    case None => ""
    case Some(f) =>
      if !IsValidSymbolType(f.symbolType) then ""
      else DIRECTION_TEXT[f.symbolType as int]
  }

  /** The table has one entry per symbol type, and no entry is empty. */
  lemma DirectionTextShape()
    ensures |DIRECTION_TEXT| == NUM_SYMBOL_TYPES as int
    ensures forall t :: 0 <= t < |DIRECTION_TEXT| ==> DIRECTION_TEXT[t] != ""
  {
  }

  /** Value of a direction: what the score snapshot stores. */
  datatype DirectionValue = DirectionValue(position: nat, symbols: seq<bv16>)

  class Direction {
    var position: nat
    var symbols: seq<bv16>

    function Value(): DirectionValue
      reads this
    {
      DirectionValue(position, symbols)
    }

    /** Default constructor: position 0, no symbols. */
    constructor ()
      ensures position == DEFAULT_POSITION && symbols == []
    {
      position := DEFAULT_POSITION;
      symbols := [];
    }

    /** Primary constructor: one symbol, added by AddSymbol (dropped if any field is invalid). */
    constructor WithSymbol(position: nat, symbolType: bv8, activeSymbol: bv8, repeatNumber: bv8)
      requires IsValidPosition(position)
      ensures this.position == position
      ensures symbols == if ValidFields(SymbolFields(symbolType, activeSymbol, repeatNumber))
                         then [EncodeSymbol(SymbolFields(symbolType, activeSymbol, repeatNumber))]
                         else []
    {
      this.position := position;
      symbols := [];
      new;
      var _ := AddSymbol(symbolType, activeSymbol, repeatNumber);
    }

    /** Copy constructor: starts from the default position, then assigns. */
    constructor Copy(other: Direction)
      ensures position == other.position && symbols == other.symbols
    {
      position := DEFAULT_POSITION;
      symbols := [];
      new;
      Assign(other);
    }

    function SymbolCount(): nat
      reads this
    {
      |symbols|
    }

    /** operator=: copies the position and the symbols (nothing happens on self-assignment). */
    method Assign(other: Direction)
      modifies this
      ensures position == old(other.position) && symbols == old(other.symbols)
    {
      if this != other {
        position := other.position;
        symbols := [];
        var i := 0;
        var count := |other.symbols|;
        while i < count
          invariant 0 <= i <= count == |other.symbols|
          invariant other.position == old(other.position) && other.symbols == old(other.symbols)
          invariant position == other.position
          invariant symbols == other.symbols[..i]
        {
          symbols := symbols + [other.symbols[i]];
          i := i + 1;
        }
      }
    }

    /** operator==: same symbol count, same symbols element-wise, same position. */
    method Equals(other: Direction) returns (eq: bool)
      ensures eq <==> (|symbols| == |other.symbols|
                       && (forall i :: 0 <= i < |symbols| ==> symbols[i] == other.symbols[i])
                       && position == other.position)
      ensures eq <==> Value() == other.Value()
    {
      var thisSymbolCount := |symbols|;
      var otherSymbolCount := |other.symbols|;
      if thisSymbolCount != otherSymbolCount {
        return false;
      }
      var i := 0;
      while i < thisSymbolCount
        invariant 0 <= i <= thisSymbolCount
        invariant forall k :: 0 <= k < i ==> symbols[k] == other.symbols[k]
      {
        if symbols[i] != other.symbols[i] {
          return false;
        }
        i := i + 1;
      }
      assert symbols == other.symbols;
      eq := position == other.position;
    }

    /** operator!=: the negation of operator==. */
    method NotEquals(other: Direction) returns (ne: bool)
      ensures ne <==> Value() != other.Value()
    {
      var eq := Equals(other);
      ne := !eq;
    }

    /** AddSymbol: rejects invalid fields, then a full array; otherwise appends the packed symbol. */
    method AddSymbol(symbolType: bv8, activeSymbol: bv8, repeatNumber: bv8) returns (ok: bool)
      modifies this
      ensures position == old(position)
      ensures ok <==> ValidFields(SymbolFields(symbolType, activeSymbol, repeatNumber))
                      && old(|symbols|) != MAX_SYMBOLS
      ensures symbols == if ok then old(symbols) + [EncodeSymbol(SymbolFields(symbolType, activeSymbol, repeatNumber))]
                         else old(symbols)
      ensures old(|symbols|) <= MAX_SYMBOLS ==> |symbols| <= MAX_SYMBOLS
    {
      if !IsValidSymbolType(symbolType) || !IsValidActiveSymbol(activeSymbol) || !IsValidRepeatNumber(repeatNumber) {
        return false;
      }
      if |symbols| == MAX_SYMBOLS {
        return false;
      }
      symbols := symbols + [0];
      ok := SetSymbol(|symbols| - 1, symbolType, activeSymbol, repeatNumber);
    }

    /** SetSymbol: overwrites symbol `index` with the packed fields, if the index and the fields are valid. */
    method SetSymbol(index: nat, symbolType: bv8, activeSymbol: bv8, repeatNumber: bv8) returns (ok: bool)
      modifies this
      ensures position == old(position)
      ensures ok <==> index < old(|symbols|) && ValidFields(SymbolFields(symbolType, activeSymbol, repeatNumber))
      ensures symbols == if ok then old(symbols)[index := EncodeSymbol(SymbolFields(symbolType, activeSymbol, repeatNumber))]
                         else old(symbols)
    {
      if index >= |symbols| || !IsValidSymbolType(symbolType) || !IsValidActiveSymbol(activeSymbol)
         || !IsValidRepeatNumber(repeatNumber) {
        return false;
      }
      var symbol: bv16 := (symbolType as bv16) << 8;
      symbol := symbol | ((activeSymbol as bv16) << 6);
      symbol := symbol | (repeatNumber as bv16);
      symbols := symbols[index := symbol];
      ok := true;
    }

    /** GetSymbol: the unpacked fields of symbol `index`. */
    function GetSymbol(index: nat): (r: Option<SymbolFields>)
      reads this
      ensures r.Some? <==> index < |symbols|
      ensures r.Some? ==> EncodeSymbol(r.value) == symbols[index]
    {
      SymbolAt(symbols, index)
    }

    /** IsSymbolType: symbol `index` exists, `symbolType` is a valid type, and the stored type is it. */
    function IsSymbolType(index: nat, symbolType: bv8): (r: bool)
      reads this
      ensures r <==> index < |symbols| && IsValidSymbolType(symbolType)
                     && DecodeSymbol(symbols[index]).symbolType == symbolType
    {
      if index >= |symbols| || !IsValidSymbolType(symbolType) then false
      else GetSymbol(index).value.symbolType == symbolType
    }

    /** RemoveSymbolAtIndex: erases exactly symbol `index`, keeping the order of the others. */
    method RemoveSymbolAtIndex(index: nat) returns (ok: bool)
      modifies this
      ensures position == old(position)
      ensures ok <==> index < old(|symbols|)
      ensures symbols == if ok then old(symbols)[..index] + old(symbols)[index + 1..] else old(symbols)
    {
      if index >= |symbols| {
        return false;
      }
      symbols := symbols[..index] + symbols[index + 1..];
      ok := true;
    }

    /** GetText: the text of the type of symbol `index`. */
    function GetText(index: nat): (r: string)
      reads this
      ensures r != "" <==> index < |symbols| && IsValidSymbolType(DecodeSymbol(symbols[index]).symbolType)
      ensures r != "" ==> r == DIRECTION_TEXT[DecodeSymbol(symbols[index]).symbolType as int]
    {
      TextAt(symbols, index)
    }
  }

  /** After a successful SetSymbol, GetSymbol returns exactly the fields that were set. */
  lemma SetThenGet(symbols: seq<bv16>, index: nat, f: SymbolFields)
    requires index < |symbols| && ValidFields(f)
    ensures SymbolAt(symbols[index := EncodeSymbol(f)], index) == Some(f)
  {
    DecodeEncode(f);
  }

  /** Removing symbol `index` shifts the later symbols down by one and keeps the earlier ones. */
  lemma RemovedSymbolsShift(symbols: seq<bv16>, index: nat, k: nat)
    requires index < |symbols| && k < |symbols| - 1
    ensures SymbolAt(symbols[..index] + symbols[index + 1..], k)
            == SymbolAt(symbols, if k < index then k else k + 1)
  {
  }
}
