/** The pure helpers of src/utils/formatters.js: the stock-status classifier and its
    colour, `capitalize`, `truncateText` and `isValidEmail`. The CSV text of
    `exportToCSV` is in module Csv. */
module Formatters {
  import opened Js

  /** The three stock states the UI distinguishes. */
  datatype StockStatus = Bajo | Medio | Suficiente

  /** The string `getStockStatus` returns for each state. */
  function StatusName(st: StockStatus): string {
    match st
    case Bajo => "bajo"
    case Medio => "medio"
    case Suficiente => "suficiente"
  }

  /** Position in the order bajo < medio < suficiente. */
  function StatusRank(st: StockStatus): nat {
    match st
    case Bajo => 0
    case Medio => 1
    case Suficiente => 2
  }

  /** `getStockStatus`: first match wins, so `stock <= min` is bajo whatever max is. */
  function GetStockStatus(stock: int, stockMinimo: int, stockMaximo: int): (st: StockStatus)
    ensures st == Bajo <==> stock <= stockMinimo
    ensures st == Suficiente <==> stock > stockMinimo && stock >= stockMaximo
    ensures st == Medio <==> stockMinimo < stock < stockMaximo
  {
    if stock <= stockMinimo then Bajo
    else if stock >= stockMaximo then Suficiente
    else Medio
  }

  /** For fixed thresholds, more stock never gives a lower state. */
  lemma StatusMonotonic(s1: int, s2: int, stockMinimo: int, stockMaximo: int)
    requires s1 <= s2
    ensures StatusRank(GetStockStatus(s1, stockMinimo, stockMaximo))
            <= StatusRank(GetStockStatus(s2, stockMinimo, stockMaximo))
  {
  }

  const Red := "text-red-600"
  const Yellow := "text-yellow-600"
  const Green := "text-green-600"
  const Gray := "text-gray-600"

  /** The `switch (status)` of `getStockColor`, over the status string, with its default. */
  function ColorForStatusName(name: string): string {
    if name == "bajo" then Red
    else if name == "medio" then Yellow
    else if name == "suficiente" then Green
    else Gray
  }

  /** `getStockColor`: red, yellow or green by status; the gray default is never taken. */
  function GetStockColor(stock: int, stockMinimo: int, stockMaximo: int): (color: string)
    ensures stock <= stockMinimo ==> color == Red
    ensures stockMinimo < stock < stockMaximo ==> color == Yellow
    ensures stock > stockMinimo && stock >= stockMaximo ==> color == Green
    ensures color != Gray
  {
    ColorForStatusName(StatusName(GetStockStatus(stock, stockMinimo, stockMaximo)))
  }

  /** `capitalize`: '' stays '', otherwise the first character upper-cased and the rest
      lower-cased. */
  function Capitalize(str: string): (r: string)
    ensures str == "" ==> r == ""
    ensures |r| == |str|
    ensures str != "" ==> r[0] == UpperChar(str[0])
    ensures forall i | 1 <= i < |str| :: r[i] == LowerChar(str[i])
  {
    if str == "" then "" else ToUpper(str[..1]) + ToLower(str[1..])
  }

  const DefaultMaxLength := 50

  /** `text.substring(0, end)`: the end is clamped into [0, |text|]. */
  function Prefix(text: string, end: int): string {
    if end <= 0 then "" else if end >= |text| then text else text[..end]
  }

  /** `truncateText(text, maxLength)`; the default length is DefaultMaxLength. */
  function TruncateText(text: string, maxLength: int): (r: string)
    ensures text == "" ==> r == ""
    ensures text != "" && |text| <= maxLength ==> r == text
    ensures |text| > maxLength && maxLength >= 0 ==>
              r == text[..maxLength] + "..." && |r| == maxLength + 3
    ensures text != "" && |text| > maxLength && maxLength < 0 ==> r == "..."
  {
    if text == "" then ""
    else if |text| <= maxLength then text
    else Prefix(text, maxLength) + "..."
  }

  /** `[^\s@]+`: a non-empty run of characters that are neither whitespace nor '@'. */
  predicate IsAtom(s: string) {
    |s| > 0 && forall i | 0 <= i < |s| :: !IsWhitespace(s[i]) && s[i] != '@'
  }

  /** `isValidEmail`: the language of /^[^\s@]+@[^\s@]+\.[^\s@]+$/, a split of the
      whole string into atom '@' atom '.' atom. */
  predicate IsValidEmail(email: string) {
    exists p, q | 0 < p < q < |email| ::
      && IsAtom(email[..p]) && email[p] == '@'
      && IsAtom(email[p + 1..q]) && email[q] == '.'
      && IsAtom(email[q + 1..])
  }

  /** `s[k]` is the only '@' in `s`. */
  predicate OnlyAtAt(s: string, k: int) {
    0 <= k < |s| && s[k] == '@' && forall i | 0 <= i < |s| && i != k :: s[i] != '@'
  }

  /** `d` has a '.' that is neither its first nor its last character. */
  predicate HasInnerDot(d: string) {
    exists j | 0 < j < |d| - 1 :: d[j] == '.'
  }

  /** The address shape in plain words: no whitespace, exactly one '@' with something
      before it, and after it a '.' that is neither first nor last. */
  predicate WellFormedAddress(s: string) {
    && NoWhitespace(s)
    && exists k | 0 < k < |s| :: OnlyAtAt(s, k) && HasInnerDot(s[k + 1..])
  }

  lemma IsValidEmailIff(email: string)
    ensures IsValidEmail(email) <==> WellFormedAddress(email)
  {
    if IsValidEmail(email) {
      var p, q :| 0 < p < q < |email| &&
        IsAtom(email[..p]) && email[p] == '@' && IsAtom(email[p + 1..q]) &&
        email[q] == '.' && IsAtom(email[q + 1..]);
      PatternIsWellFormed(email, p, q);
    }
    if WellFormedAddress(email) {
      var k :| 0 < k < |email| && OnlyAtAt(email, k) && HasInnerDot(email[k + 1..]);
      var j :| 0 < j < |email[k + 1..]| - 1 && email[k + 1..][j] == '.';
      WellFormedIsPattern(email, k, k + 1 + j);
    }
  }

  lemma PatternIsWellFormed(s: string, p: int, q: int)
    requires 0 < p < q < |s|
    requires IsAtom(s[..p]) && s[p] == '@' && IsAtom(s[p + 1..q]) && s[q] == '.'
    requires IsAtom(s[q + 1..])
    ensures WellFormedAddress(s)
  {
    forall i | 0 <= i < |s| ensures !IsWhitespace(s[i]) && (i != p ==> s[i] != '@') {
      if i < p {
        assert s[i] == s[..p][i];
      } else if p < i < q {
        assert s[i] == s[p + 1..q][i - p - 1];
      } else if q < i {
        assert s[i] == s[q + 1..][i - q - 1];
      }
    }
    assert OnlyAtAt(s, p);
    assert s[p + 1..][q - p - 1] == '.';
    assert HasInnerDot(s[p + 1..]);
  }

  lemma WellFormedIsPattern(s: string, k: int, q: int)
    requires NoWhitespace(s) && 0 < k && OnlyAtAt(s, k)
    requires k + 1 < q < |s| - 1 && s[q] == '.'
    ensures IsValidEmail(s)
  {
    assert IsAtom(s[..k]) by {
      forall i | 0 <= i < k ensures !IsWhitespace(s[..k][i]) && s[..k][i] != '@' {
        assert s[..k][i] == s[i];
      }
    }
    assert IsAtom(s[k + 1..q]);
    assert IsAtom(s[q + 1..]);
  }
}
