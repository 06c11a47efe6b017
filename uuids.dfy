/** The part of github.com/google/uuid the server uses: the canonical 8-4-4-4-12 text form,
    parsing it (uuid.MustParse on that form) and printing it (UUID.String). */
module Uuids {

  newtype Nibble = x: int | 0 <= x < 16

  /** A UUID as its 32 hexadecimal digits, most significant first. */
  datatype Uuid = Uuid(nibbles: seq<Nibble>)

  predicate Valid(u: Uuid) { |u.nibbles| == 32 }

  /** uuid.Nil, the all-zero UUID. */
  const Nil: Uuid := Uuid([0, 0, 0, 0, 0, 0, 0, 0, 0, 0, 0, 0, 0, 0, 0, 0, 0, 0, 0, 0, 0, 0, 0, 0, 0, 0, 0, 0, 0, 0, 0, 0])

  /** uuid.UUID: always 16 bytes, i.e. 32 hexadecimal digits. */
  type UUID = u: Uuid | Valid(u) witness Nil

  predicate IsHex(c: char) {
    '0' <= c <= '9' || 'a' <= c <= 'f' || 'A' <= c <= 'F'
  }

  function HexValue(c: char): Nibble
    requires IsHex(c)
  {
    if '0' <= c <= '9' then (c as int - '0' as int) as Nibble
    else if 'a' <= c <= 'f' then (c as int - 'a' as int + 10) as Nibble
    else (c as int - 'A' as int + 10) as Nibble
  }

  /** The lower-case digit UUID.String prints for a nibble. */
  function HexDigit(n: Nibble): (c: char)
    ensures IsHex(c) && HexValue(c) == n
    ensures !('A' <= c <= 'F')
  {
    if n < 10 then ('0' as int + n as int) as char else ('a' as int + n as int - 10) as char
  }

  function ToLowerHex(c: char): char
    requires IsHex(c)
  {
    if 'A' <= c <= 'F' then (c as int - 'A' as int + 'a' as int) as char else c
  }

  predicate IsDashPosition(j: int) { j == 8 || j == 13 || j == 18 || j == 23 }

  /** The shape [0-9a-fA-F]{8}-[0-9a-fA-F]{4}-[0-9a-fA-F]{4}-[0-9a-fA-F]{4}-[0-9a-fA-F]{12}. */
  predicate IsUuidText(w: string) {
    |w| == 36 &&
    forall j :: 0 <= j < 36 ==> if IsDashPosition(j) then w[j] == '-' else IsHex(w[j])
  }

  /** Where the i-th hex digit sits in the 36-character text. */
  function TextIndex(i: nat): (j: nat)
    requires i < 32
    ensures j < 36 && !IsDashPosition(j) && NibbleIndex(j) == i
  {
    if i < 8 then i else if i < 12 then i + 1 else if i < 16 then i + 2 else if i < 20 then i + 3 else i + 4
  }

  /** Which hex digit a non-dash text position holds. */
  function NibbleIndex(j: nat): (i: nat)
    requires j < 36 && !IsDashPosition(j)
    ensures i < 32
  {
    if j < 8 then j else if j < 13 then j - 1 else if j < 18 then j - 2 else if j < 23 then j - 3 else j - 4
  }

  lemma TextIndexOfNibbleIndex(j: nat)
    requires j < 36 && !IsDashPosition(j)
    ensures TextIndex(NibbleIndex(j)) == j
  {
  }

  /** uuid.MustParse on the canonical text form, in either letter case. */
  function Parse(w: string): (u: Uuid)
    requires IsUuidText(w)
    ensures Valid(u)
  {
    Uuid(seq(32, i requires 0 <= i < 32 => HexValue(w[TextIndex(i)])))
  }

  /** UUID.String: canonical text form, lower case. */
  function Format(u: Uuid): (w: string)
    requires Valid(u)
    ensures IsUuidText(w)
  {
    seq(36, j requires 0 <= j < 36 => if IsDashPosition(j) then '-' else HexDigit(u.nibbles[NibbleIndex(j)]))
  }

  /** Printing a UUID and parsing the text gives the same UUID. */
  lemma ParseFormat(u: Uuid)
    requires Valid(u)
    ensures Parse(Format(u)) == u
  {
    var p := Parse(Format(u));
    forall i | 0 <= i < 32 ensures p.nibbles[i] == u.nibbles[i] {
      var j := TextIndex(i);
      assert Format(u)[j] == HexDigit(u.nibbles[i]);
    }
  }

  /** Parsing canonical text and printing it back gives the text in lower case. */
  lemma FormatParse(w: string)
    requires IsUuidText(w)
    ensures |Format(Parse(w))| == 36
    ensures forall j :: 0 <= j < 36 && !IsDashPosition(j) ==> Format(Parse(w))[j] == ToLowerHex(w[j])
    ensures forall j :: 0 <= j < 36 && IsDashPosition(j) ==> Format(Parse(w))[j] == w[j]
  {
    forall j | 0 <= j < 36 && !IsDashPosition(j) ensures Format(Parse(w))[j] == ToLowerHex(w[j]) {
      TextIndexOfNibbleIndex(j);
    }
  }
}
