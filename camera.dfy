/**
 * Display names of cameras (camera.ts, cameraName): a trailing device id in
 * parentheses, `(hex)` or `(hex:hex)`, is removed together with the white space
 * around it; a label that would become empty is kept as it is.
 */
module CameraLabels {

  import opened Wrappers

  /** The characters matched by `\s` in a JavaScript regular expression. */
  predicate IsSpace(c: char)
  {
    c == ' ' || c == '\t' || c == '\n' || c == '\U{000B}' || c == '\U{000C}' || c == '\r'
    || c == '\U{00A0}' || c == '\U{1680}' || ('\U{2000}' <= c <= '\U{200A}')
    || c == '\U{2028}' || c == '\U{2029}' || c == '\U{202F}' || c == '\U{205F}'
    || c == '\U{3000}' || c == '\U{FEFF}'
  }

  /** Only lower-case hexadecimal digits count: `[0-9a-f]`. */
  predicate IsHexDigit(c: char)
  {
    ('0' <= c <= '9') || ('a' <= c <= 'f')
  }

  /** A character that may occur between the parentheses of a device id. */
  predicate IsIdChar(c: char)
  {
    IsHexDigit(c) || c == ':'
  }

  predicate AllSpace(s: string)
  {
    forall i :: 0 <= i < |s| ==> IsSpace(s[i])
  }

  /** `[0-9a-f]+` */
  predicate IsHex(s: string)
  {
    |s| > 0 && forall i :: 0 <= i < |s| ==> IsHexDigit(s[i])
  }

  // ---------------------------------------------------------------------------
  // Reference definition: the language of `\s*\([0-9a-f]+(:[0-9a-f]+)?\)\s*$`
  // ---------------------------------------------------------------------------

  /** `[0-9a-f]+(:[0-9a-f]+)?` */
  ghost predicate DeviceIdShape(s: string)
  {
    IsHex(s) || exists k :: 0 <= k < |s| && s[k] == ':' && IsHex(s[..k]) && IsHex(s[k + 1..])
  }

  /** The whole of `s` is matched by the pattern, anchored at the end of the label. */
  ghost predicate IsIdSuffix(s: string)
  {
    exists a, b :: 0 <= a < b < |s| && AllSpace(s[..a]) && s[a] == '(' && DeviceIdShape(s[a + 1..b])
                   && s[b] == ')' && AllSpace(s[b + 1..])
  }

  // ---------------------------------------------------------------------------
  // The matcher: scans the label from its end
  // ---------------------------------------------------------------------------

  /** Length of `s` without its trailing white space. */
  function TrimEnd(s: string): (n: nat)
    ensures n <= |s| && AllSpace(s[n..])
    ensures n > 0 ==> !IsSpace(s[n - 1])
  {
    if |s| == 0 || !IsSpace(s[|s| - 1]) then |s|
    else
      var n := TrimEnd(s[..|s| - 1]);
      assert s[n..] == s[..|s| - 1][n..] + [s[|s| - 1]];
      n
  }

  /** Start of the longest run of id characters that ends just before position `e`. */
  function IdRunStart(s: string, e: nat): (q: nat)
    requires e <= |s|
    ensures q <= e
    ensures forall i :: q <= i < e ==> IsIdChar(s[i])
    ensures q > 0 ==> !IsIdChar(s[q - 1])
  {
    if e == 0 || !IsIdChar(s[e - 1]) then e else IdRunStart(s, e - 1)
  }

  /** Position of the first ':' in `s`, or `|s|` when there is none. */
  function ColonAt(s: string): (k: nat)
    ensures k <= |s|
    ensures forall i :: 0 <= i < k ==> s[i] != ':'
    ensures k < |s| ==> s[k] == ':'
  {
    if |s| == 0 then 0
    else if s[0] == ':' then 0
    else 1 + ColonAt(s[1..])
  }

  /** Decides `[0-9a-f]+(:[0-9a-f]+)?` by splitting at the first colon. */
  predicate IsDeviceId(s: string)
  {
    var k := ColonAt(s);
    IsHex(s) || (k < |s| && IsHex(s[..k]) && IsHex(s[k + 1..]))
  }

  /** Where the replaced match begins in the label, if the pattern matches at all. */
  function MatchStart(text: string): Option<nat>
  {
    var e := TrimEnd(text);
    if e == 0 || text[e - 1] != ')' then None
    else
      var q := IdRunStart(text, e - 1);
      if q == 0 || text[q - 1] != '(' || !IsDeviceId(text[q..e - 1]) then None
      else Some(TrimEnd(text[..q - 1]))
  }

  /**
   * `text.replace(pattern, '')`: the label up to the leftmost position from
   * which the rest of the label is an id suffix, or the label itself.
   */
  function StripIdSuffix(text: string): (r: string)
    ensures |r| <= |text| && r == text[..|r|]
    ensures |r| < |text| ==> IsIdSuffix(text[|r|..])
    ensures forall j :: 0 <= j < |r| ==> !IsIdSuffix(text[j..])
  {
    MatchSound(text);
    MatchLeftmost(text);
    match MatchStart(text)
    case None => text
    case Some(i) => text[..i]
  }

  /** The camera name shown to the user: the stripped label, unless that is empty. */
  function CameraName(text: string): string
  {
    var clean := StripIdSuffix(text);
    if clean == "" then text else clean
  }

  // ---------------------------------------------------------------------------
  // Proofs about the matcher
  // ---------------------------------------------------------------------------

  lemma DeviceIdDecides(s: string)
    ensures IsDeviceId(s) <==> DeviceIdShape(s)
  {
    var k := ColonAt(s);
    if IsDeviceId(s) && !IsHex(s) {
      assert s[k] == ':' && IsHex(s[..k]) && IsHex(s[k + 1..]);
    }
    if DeviceIdShape(s) && !IsHex(s) {
      var j :| 0 <= j < |s| && s[j] == ':' && IsHex(s[..j]) && IsHex(s[j + 1..]);
      assert j == k;
    }
  }

  /** The trimmed length is determined by the last character that is not white space. */
  lemma TrimEndAt(s: string, m: nat)
    requires 0 < m <= |s| && !IsSpace(s[m - 1]) && AllSpace(s[m..])
    ensures TrimEnd(s) == m
  {
    var n := TrimEnd(s);
  }

  /** Trimming never goes past a white-space-only tail. */
  lemma TrimEndAtMost(s: string, j: nat)
    requires j <= |s| && AllSpace(s[j..])
    ensures TrimEnd(s) <= j
  {
    var n := TrimEnd(s);
  }

  /** The id run is determined by the character that bounds it on the left. */
  lemma IdRunAt(s: string, e: nat, q: nat)
    requires 0 < q <= e <= |s| && !IsIdChar(s[q - 1])
    requires forall i :: q <= i < e ==> IsIdChar(s[i])
    ensures IdRunStart(s, e) == q
  {
    var p := IdRunStart(s, e);
  }

  /** The pieces the matcher checks make up an id suffix. */
  lemma IdSuffixFromPieces(text: string, i: nat, q: nat, e: nat)
    requires i < q < e <= |text|
    requires AllSpace(text[i..q - 1]) && text[q - 1] == '(' && IsDeviceId(text[q..e - 1])
    requires text[e - 1] == ')' && AllSpace(text[e..])
    ensures IsIdSuffix(text[i..])
  {
    var s := text[i..];
    var a, b := q - 1 - i, e - 1 - i;
    assert s[..a] == text[i..q - 1];
    assert s[a + 1..b] == text[q..e - 1];
    assert s[b + 1..] == text[e..];
    DeviceIdDecides(text[q..e - 1]);
    assert 0 <= a < b < |s| && AllSpace(s[..a]) && s[a] == '(' && DeviceIdShape(s[a + 1..b])
           && s[b] == ')' && AllSpace(s[b + 1..]);
  }

  lemma MatchSound(text: string)
    ensures MatchStart(text).Some? ==> MatchStart(text).value < |text|
    ensures MatchStart(text).Some? ==> IsIdSuffix(text[MatchStart(text).value..])
  {
    if MatchStart(text).Some? {
      var e := TrimEnd(text);
      var q := IdRunStart(text, e - 1);
      assert 0 < q < e && text[q - 1] == '(' && IsDeviceId(text[q..e - 1]) && text[e - 1] == ')';
      var i := TrimEnd(text[..q - 1]);
      assert MatchStart(text) == Some(i);
      TrimmedTail(text, q - 1);
      IdSuffixFromPieces(text, i, q, e);
    }
  }

  lemma TrimmedTail(text: string, p: nat)
    requires p <= |text|
    ensures TrimEnd(text[..p]) <= p && AllSpace(text[TrimEnd(text[..p])..p])
  {
    var i := TrimEnd(text[..p]);
    assert text[..p][i..] == text[i..p];
  }

  /** Every character of a device id is an id character. */
  lemma DeviceIdChars(id: string)
    requires DeviceIdShape(id)
    ensures forall k :: 0 <= k < |id| ==> IsIdChar(id[k])
  {
    if !IsHex(id) {
      var c :| 0 <= c < |id| && id[c] == ':' && IsHex(id[..c]) && IsHex(id[c + 1..]);
      forall k | 0 <= k < |id| ensures IsIdChar(id[k]) {
        if k < c {
          assert id[..c][k] == id[k];
        } else if k > c {
          assert id[c + 1..][k - c - 1] == id[k];
        }
      }
    }
  }

  /** An id suffix starting at `j` is found by the matcher, at `j` or further left. */
  lemma PiecesGiveMatch(text: string, j: nat, q: nat, e: nat)
    requires j < q < e <= |text|
    requires AllSpace(text[j..q - 1]) && text[q - 1] == '(' && DeviceIdShape(text[q..e - 1])
    requires text[e - 1] == ')' && AllSpace(text[e..])
    ensures MatchStart(text).Some? && MatchStart(text).value <= j
  {
    TrimEndAt(text, e);
    IdCharsIn(text, q, e - 1);
    IdRunAt(text, e - 1, q);
    DeviceIdDecides(text[q..e - 1]);
    assert text[..q - 1][j..] == text[j..q - 1];
    TrimEndAtMost(text[..q - 1], j);
  }

  lemma IdCharsIn(text: string, q: nat, p: nat)
    requires q <= p <= |text| && DeviceIdShape(text[q..p])
    ensures forall k :: q <= k < p ==> IsIdChar(text[k])
  {
    DeviceIdChars(text[q..p]);
    forall k | q <= k < p ensures IsIdChar(text[k]) {
      assert text[q..p][k - q] == text[k];
    }
  }

  /** No match starts before the one the matcher finds; none at all when it finds none. */
  lemma MatchLeftmost(text: string)
    ensures forall j :: 0 <= j <= |text| && IsIdSuffix(text[j..]) ==>
              MatchStart(text).Some? && MatchStart(text).value <= j
  {
    forall j | 0 <= j <= |text| && IsIdSuffix(text[j..])
      ensures MatchStart(text).Some? && MatchStart(text).value <= j
    {
      var s := text[j..];
      var a, b :| 0 <= a < b < |s| && AllSpace(s[..a]) && s[a] == '(' && DeviceIdShape(s[a + 1..b])
                  && s[b] == ')' && AllSpace(s[b + 1..]);
      SuffixPieces(text, j, a, b);
    }
  }

  /** A match of the pattern inside `text[j..]`, read as pieces of `text`. */
  lemma SuffixPieces(text: string, j: nat, a: nat, b: nat)
    requires j <= |text| && a < b < |text| - j
    requires var s := text[j..];
      AllSpace(s[..a]) && s[a] == '(' && DeviceIdShape(s[a + 1..b]) && s[b] == ')' && AllSpace(s[b + 1..])
    ensures MatchStart(text).Some? && MatchStart(text).value <= j
  {
    var s := text[j..];
    assert s[..a] == text[j..j + a];
    assert s[a + 1..b] == text[j + a + 1..j + b];
    assert s[b + 1..] == text[j + b + 1..];
    PiecesGiveMatch(text, j, j + a + 1, j + b + 1);
  }

  // ---------------------------------------------------------------------------
  // Properties of cameraName
  // ---------------------------------------------------------------------------

  /** The name is always a prefix of the label, and never empty unless the label is. */
  lemma NameIsPrefix(text: string)
    ensures |CameraName(text)| <= |text| && CameraName(text) == text[..|CameraName(text)|]
    ensures CameraName(text) == "" ==> text == ""
  {
  }

  /** A label with a device-id suffix loses exactly the leftmost match, white space included. */
  lemma SuffixRemoved(text: string, j: nat)
    requires 0 < j <= |text| && IsIdSuffix(text[j..])
    requires forall i :: 0 <= i < j ==> !IsIdSuffix(text[i..])
    ensures CameraName(text) == text[..j]
  {
    MatchLeftmost(text);
    MatchSound(text);
    var i := MatchStart(text).value;
    assert i == j;
  }

  /** A label in which no position starts an id suffix is returned unchanged. */
  lemma NoSuffixUnchanged(text: string)
    requires forall j :: 0 <= j <= |text| ==> !IsIdSuffix(text[j..])
    ensures CameraName(text) == text
  {
  }

  /** A label that is nothing but a device id is kept, since stripping would leave it empty. */
  lemma EmptyResultFallsBack(text: string)
    requires IsIdSuffix(text)
    ensures CameraName(text) == text
  {
    MatchLeftmost(text);
    assert text[0..] == text;
  }

  /** A usual label: the device id and the blank before it are removed. */
  lemma ExampleStripped()
    ensures CameraName("Cam (1f:a2) ") == "Cam"
  {
    var t := "Cam (1f:a2) ";
    ExampleTrims();
    ExampleId();
    assert MatchStart(t) == Some(3);
  }

  lemma ExampleTrims()
    ensures TrimEnd("Cam (1f:a2) ") == 11 && TrimEnd("Cam (1f:a2) "[..4]) == 3
  {
    var t := "Cam (1f:a2) ";
    assert TrimEnd(t[..11]) == 11;
  }

  lemma ExampleId()
    ensures IdRunStart("Cam (1f:a2) ", 10) == 5 && IsDeviceId("Cam (1f:a2) "[5..10])
  {
    var t := "Cam (1f:a2) ";
    assert IdRunStart(t, 10) == 5;
    assert ColonAt(t[5..10]) == 2;
  }

  /** Upper-case hexadecimal digits are not part of a device id, so nothing is removed. */
  lemma ExampleUpperCase()
    ensures CameraName("Cam (AB)") == "Cam (AB)"
  {
    var t := "Cam (AB)";
    assert TrimEnd(t) == 8;
    assert IdRunStart(t, 7) == 7;
    assert MatchStart(t) == None;
  }

  /** A label that is only a device id stays as it is. */
  lemma ExampleOnlyId()
    ensures CameraName(" (1f)") == " (1f)"
  {
    var t := " (1f)";
    assert TrimEnd(t) == 5;
    assert IdRunStart(t, 4) == 2;
    assert IsDeviceId(t[2..4]);
    assert TrimEnd(t[..1]) == 0;
    assert MatchStart(t) == Some(0);
  }
}
