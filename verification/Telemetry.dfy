/** Accepted telemetry: the record that ingest hands to the archive, and the texts it is made of. */
module Telemetry {
  import opened Text

  const NIL: string := "00000000-0000-0000-0000-000000000000"

  predicate IsHex(c: char) { '0' <= c <= '9' || 'a' <= c <= 'f' }

  /** The canonical text of a UUID; the model identifies a UUID with this text. */
  predicate IsUuid(s: string) {
    |s| == 36 && forall i :: 0 <= i < 36 ==> if i == 8 || i == 13 || i == 18 || i == 23 then s[i] == '-'
        else IsHex(s[i])
  }

  type Uuid = s: string | IsUuid(s) witness NIL

  /** uuid.UUID{}, the device id of a record read back from a file. */
  const NO_DEVICE: Uuid := NIL

  function ParseUuid(s: string): Option<Uuid> {
    if IsUuid(s) then Some(s) else None
  }

  predicate IsNumberChar(c: char) { IsDigit(c) || c == '-' || c == '.' }

  /** Where a minus sign and a point may stand, and which zeros are not printed. */
  predicate IsDecimal(s: string)
    requires s != ""
  {
    var first := if s[0] == '-' then 1 else 0;
    && first < |s| && IsDigit(s[first]) && IsDigit(s[|s| - 1])
    && (forall i :: 0 < i < |s| ==> s[i] != '-')
    && (forall i, j :: 0 <= i < j < |s| ==> s[i] != '.' || s[j] != '.')
    && (s[first] == '0' ==> first + 1 == |s| || s[first + 1] == '.')
    && (s[|s| - 1] == '0' ==> '.' !in s)
  }

  /** The form FormatFloat(f, 'f', -1, 64) prints a finite float in: digits, a minus sign before them, a point
      between them, no needless zero. The model identifies the float with its text. */
  predicate IsNumber(s: string) {
    s != "" && (forall i :: 0 <= i < |s| ==> IsNumberChar(s[i])) && IsDecimal(s)
  }

  type Number = s: string | IsNumber(s) witness "0"

  function ParseNumber(s: string): Option<Number> {
    if IsNumber(s) then Some(s) else None
  }

  predicate IsIdentifierChar(c: char) {
    'A' <= c <= 'Z' || 'a' <= c <= 'z' || '0' <= c <= '9' || c == '.' || c == '_' || c == ':' || c == '-'
  }

  /** What requireIdentifier accepts for a device. */
  predicate IsIdentifier(s: string) {
    1 <= |s| <= 128 && forall i :: 0 <= i < |s| ==> IsIdentifierChar(s[i])
  }

  type Identifier = s: string | IsIdentifier(s) witness "d"

  /** ts counts nanoseconds; see Calendar. */
  datatype Record = Record(org: Uuid, deviceId: Uuid, ident: string, temperature: Number, pressure: Number,
      humidity: Number, ts: int)

  /** A record whose device passed requireIdentifier when it was created. */
  predicate Accepted(rec: Record) { IsIdentifier(rec.ident) }
}
