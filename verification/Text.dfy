/** Optional values, and the text rules the Catalog applies to its inputs. */
module Text {

  datatype Option<+T> = None | Some(value: T)

  /** The characters JavaScript's `trim` removes. */
  predicate IsSpace(c: char) {
    || '\t' <= c <= '\r' || c == ' ' || c == '\U{A0}' || c == '\U{1680}'
    || '\U{2000}' <= c <= '\U{200A}' || c == '\U{2028}' || c == '\U{2029}'
    || c == '\U{202F}' || c == '\U{205F}' || c == '\U{3000}' || c == '\U{FEFF}'
  }

  predicate Blank(s: string) {
    forall i | 0 <= i < |s| :: IsSpace(s[i])
  }

  function TrimStart(s: string): string {
    if s != [] && IsSpace(s[0]) then TrimStart(s[1..]) else s
  }

  function TrimEnd(s: string): string {
    if s != [] && IsSpace(s[|s| - 1]) then TrimEnd(s[..|s| - 1]) else s
  }

  function Trim(s: string): string {
    TrimEnd(TrimStart(s))
  }

  /** Trimming cuts spaces off both ends and nothing else. */
  lemma TrimCutsSpaces(s: string)
    ensures exists i, j | 0 <= i <= j <= |s| ::
              Trim(s) == s[i..j] && Blank(s[..i]) && Blank(s[j..])
    ensures Trim(s) != [] ==> !IsSpace(Trim(s)[0]) && !IsSpace(Trim(s)[|Trim(s)| - 1])
  {
    var i := TrimStartCuts(s);
    var tail := s[i..];
    var j := TrimEndCuts(tail);
    assert Trim(s) == s[i..i + j];
    assert s[i + j..] == tail[j..];
    assert Trim(s) != [] ==> Trim(s)[0] == tail[0];
  }

  lemma TrimStartCuts(s: string) returns (i: nat)
    ensures i <= |s| && TrimStart(s) == s[i..] && Blank(s[..i])
    ensures i < |s| ==> !IsSpace(s[i])
  {
    if s != [] && IsSpace(s[0]) {
      var k := TrimStartCuts(s[1..]);
      i := k + 1;
      assert s[1..][k..] == s[i..];
      forall x | 0 <= x < i ensures IsSpace(s[..i][x]) {
        if x > 0 { assert s[1..][..k][x - 1] == s[x]; }
      }
    } else {
      i := 0;
    }
  }

  lemma TrimEndCuts(s: string) returns (j: nat)
    ensures j <= |s| && TrimEnd(s) == s[..j] && Blank(s[j..])
    ensures j > 0 ==> !IsSpace(s[j - 1])
  {
    if s != [] && IsSpace(s[|s| - 1]) {
      var init := s[..|s| - 1];
      j := TrimEndCuts(init);
      assert init[..j] == s[..j];
      forall x | 0 <= x < |s[j..]| ensures IsSpace(s[j..][x]) {
        if x < |s| - 1 - j { assert init[j..][x] == s[j + x]; }
      }
    } else {
      j := |s|;
    }
  }

  /** A caller's correlation id, which may be missing or of another type altogether. */
  datatype CorrelationInput = Absent | Text(text: string) | NotText

  datatype Correlation = Invalid | Valid(id: Option<string>)

  predicate Printable(s: string) {
    forall i | 0 <= i < |s| :: ' ' <= s[i] <= '~'
  }

  function ParseCorrelation(raw: CorrelationInput): Correlation {
    match raw
    case Absent => Valid(None)
    case NotText => Invalid
    case Text(s) =>
      var t := Trim(s);
      if 1 <= |t| <= 128 && Printable(t) then Valid(Some(t)) else Invalid
  }

  /** Whatever is stored fits the column, and storing it again changes nothing. */
  lemma ParseCorrelationIsIdempotent(raw: CorrelationInput)
    requires ParseCorrelation(raw).Valid? && ParseCorrelation(raw).id.Some?
    ensures var t := ParseCorrelation(raw).id.value;
            1 <= |t| <= 128 && ParseCorrelation(Text(t)) == Valid(Some(t))
  {
    TrimCutsSpaces(raw.text);
  }

  /** Code-unit order on strings, as the in-memory adapter compares request ids. */
  predicate Less(a: string, b: string) {
    if b == [] then false
    else if a == [] then true
    else a[0] < b[0] || (a[0] == b[0] && Less(a[1..], b[1..]))
  }

  /** At the first character that differs `a` has the smaller one, or `a` ends where `b` goes on. */
  ghost predicate ComesBefore(a: string, b: string) {
    exists k: nat :: DiffersAt(a, b, k)
  }

  predicate DiffersAt(a: string, b: string, k: nat) {
    k <= |a| && k < |b| && a[..k] == b[..k] && (k == |a| || a[k] < b[k])
  }

  lemma {:induction false} LessDiffers(a: string, b: string) returns (k: nat)
    requires Less(a, b)
    ensures DiffersAt(a, b, k)
  {
    k := 0;
    if a != [] && a[0] == b[0] {
      var i := LessDiffers(a[1..], b[1..]);
      k := i + 1;
      assert a[..k] == [a[0]] + a[1..][..i] && b[..k] == [b[0]] + b[1..][..i];
    }
  }

  lemma {:induction false} DiffersIsLess(a: string, b: string, k: nat)
    requires DiffersAt(a, b, k)
    ensures Less(a, b)
  {
    if k > 0 {
      assert a[0] == a[..k][0] && b[0] == b[..k][0];
      assert a[1..][..k - 1] == a[..k][1..] && b[1..][..k - 1] == b[..k][1..];
      DiffersIsLess(a[1..], b[1..], k - 1);
    }
  }

  lemma LessIsLexicographic(a: string, b: string)
    ensures Less(a, b) <==> ComesBefore(a, b)
  {
    if Less(a, b) {
      var k := LessDiffers(a, b);
    }
    if k :| DiffersAt(a, b, k) {
      DiffersIsLess(a, b, k);
    }
  }

  lemma {:induction false} LessIsTotal(a: string, b: string)
    ensures a == b || Less(a, b) || Less(b, a)
  {
    if a != [] && b != [] && a[0] == b[0] {
      LessIsTotal(a[1..], b[1..]);
      assert a == [a[0]] + a[1..] && b == [b[0]] + b[1..];
    }
  }

  lemma {:induction false} LessIsAsymmetric(a: string, b: string)
    requires Less(a, b)
    ensures !Less(b, a) && a != b
  {
    if a != [] && a[0] == b[0] {
      LessIsAsymmetric(a[1..], b[1..]);
    }
  }

  lemma {:induction false} LessIsTransitive(a: string, b: string, c: string)
    requires Less(a, b) && Less(b, c)
    ensures Less(a, c)
  {
    if a != [] && a[0] == b[0] && b[0] == c[0] {
      LessIsTransitive(a[1..], b[1..], c[1..]);
    }
  }
}
