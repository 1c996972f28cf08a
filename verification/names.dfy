/**
  `normalizeName(name, isDir)`: makes a broadcast title safe to use as a file
  (or directory) name by replacing every character a file system reserves with
  a look-alike, then trimming.
 */
module Names {
  import opened Text

  /** The characters no file name may contain. */
  predicate IsReserved(c: char) {
    c == '/' || c == '\\' || c == ':' || c == '*' || c == '?'
    || c == '"' || c == '<' || c == '>' || c == '|' || c == '+'
  }

  /**
    The substitution table, one character at a time: each reserved character
    becomes its full-width form (the double quote becomes a right double
    quotation mark), and for a directory name a period becomes an underscore.
   */
  function SafeChar(c: char, isDir: bool): char {
    match c
    case '/' => '\U{FF0F}'
    case '\\' => '\U{FF3C}'
    case ':' => '\U{FF1A}'
    case '*' => '\U{FF0A}'
    case '?' => '\U{FF1F}'
    case '"' => '\U{201D}'
    case '<' => '\U{FF1C}'
    case '>' => '\U{FF1E}'
    case '|' => '\U{FF5C}'
    case '+' => '\U{FF0B}'
    case '.' => if isDir then '_' else '.'
    case _ => c
  }

  /**
    The replacement steps of `normalizeName` as the program writes them, one
    global `replace` per reserved character in its order, and the period last
    for a directory name. Together they are one-for-one: the length is kept and
    each position goes through the table, so a character outside the replaced
    set stays where it was, and a period survives in a file name.
   */
  function ReplaceChain(name: string, isDir: bool): (r: string)
    ensures r == Substituted(name, isDir)
  {
    var n := ReplaceAll(name, '/', '\U{FF0F}');
    var n := ReplaceAll(n, '\\', '\U{FF3C}');
    var n := ReplaceAll(n, ':', '\U{FF1A}');
    var n := ReplaceAll(n, '*', '\U{FF0A}');
    var n := ReplaceAll(n, '?', '\U{FF1F}');
    var n := ReplaceAll(n, '"', '\U{201D}');
    var n := ReplaceAll(n, '<', '\U{FF1C}');
    var n := ReplaceAll(n, '>', '\U{FF1E}');
    var n := ReplaceAll(n, '|', '\U{FF5C}');
    var n := ReplaceAll(n, '+', '\U{FF0B}');
    if isDir then ReplaceAll(n, '.', '_') else n
  }

  /** The same replacements read as one pass of the table over the name. */
  function Substituted(name: string, isDir: bool): (r: string)
    ensures |r| == |name|
    ensures forall i :: 0 <= i < |name| ==> r[i] == SafeChar(name[i], isDir)
  {
    seq(|name|, i requires 0 <= i < |name| => SafeChar(name[i], isDir))
  }

  /**
    `normalizeName(name, isDir)`: the replacements, then `trim`. The
    replacements are written as the table pass, which `ReplaceChain` shows to
    be the program's chain of `replace` calls.
   */
  function NormalizeName(name: string, isDir: bool): (r: string)
    ensures |r| <= |name| && Trimmed(r)
  {
    Trim(Substituted(name, isDir))
  }

  /** A name `normalizeName` can produce: no reserved character, and no period in a directory name. */
  predicate SafeName(s: string, isDir: bool) {
    forall i :: 0 <= i < |s| ==> !IsReserved(s[i]) && (isDir ==> s[i] != '.')
  }

  /** The table's outputs are safe, and are left alone by a second pass. */
  lemma SafeCharIsSafe(c: char, isDir: bool)
    ensures !IsReserved(SafeChar(c, isDir)) && (isDir ==> SafeChar(c, isDir) != '.')
    ensures SafeChar(SafeChar(c, isDir), isDir) == SafeChar(c, isDir)
    ensures SafeChar(c, isDir) == c <==> !IsReserved(c) && !(isDir && c == '.')
  {
  }

  /** Trimming only removes characters, so it keeps a name safe. */
  lemma TrimKeepsSafe(s: string, isDir: bool)
    requires SafeName(s, isDir)
    ensures SafeName(Trim(s), isDir)
  {
    var r := Trim(s);
    var k := TrimOffset(s);
    forall i | 0 <= i < |r| ensures !IsReserved(r[i]) && (isDir ==> r[i] != '.') {
      assert r[i] == s[k + i];
    }
  }

  lemma SubstitutedIsSafe(name: string, isDir: bool)
    ensures SafeName(Substituted(name, isDir), isDir)
  {
    var s := Substituted(name, isDir);
    forall i | 0 <= i < |s| ensures !IsReserved(s[i]) && (isDir ==> s[i] != '.') {
      SafeCharIsSafe(name[i], isDir);
    }
  }

  /** The result has no reserved character, no period in a directory name, and no whitespace at either end. */
  lemma NormalizeNameIsSafe(name: string, isDir: bool)
    ensures SafeName(NormalizeName(name, isDir), isDir)
    ensures Trimmed(NormalizeName(name, isDir))
  {
    SubstitutedIsSafe(name, isDir);
    TrimKeepsSafe(Substituted(name, isDir), isDir);
  }

  /** A name that is already safe passes through the replacement chain unchanged. */
  lemma SubstitutedOfSafe(s: string, isDir: bool)
    requires SafeName(s, isDir)
    ensures Substituted(s, isDir) == s
  {
    forall i | 0 <= i < |s| ensures Substituted(s, isDir)[i] == s[i] {
      SafeCharIsSafe(s[i], isDir);
    }
  }

  /** Normalizing twice gives the same name as normalizing once. */
  lemma NormalizeNameIdempotent(name: string, isDir: bool)
    ensures NormalizeName(NormalizeName(name, isDir), isDir) == NormalizeName(name, isDir)
  {
    var r := NormalizeName(name, isDir);
    NormalizeNameIsSafe(name, isDir);
    SubstitutedOfSafe(r, isDir);
    TrimOfTrimmed(r);
  }

  /** The replacement chain works on each part of a concatenation separately. */
  lemma SubstitutedAppend(a: string, b: string, isDir: bool)
    ensures Substituted(a + b, isDir) == Substituted(a, isDir) + Substituted(b, isDir)
  {
    var l, r := Substituted(a + b, isDir), Substituted(a, isDir) + Substituted(b, isDir);
    forall i | 0 <= i < |a + b| ensures l[i] == r[i] {
      if i < |a| { assert (a + b)[i] == a[i]; } else { assert (a + b)[i] == b[i - |a|]; }
    }
  }

  /**
    A safe ending without whitespace at its ends, such as ".ts", survives
    `normalizeName`, and the name gets no longer.
   */
  lemma NormalizeNameKeepsSuffix(stem: string, q: string, isDir: bool)
    requires SafeName(q, isDir) && q != [] && !IsWhitespace(q[0]) && !IsWhitespace(q[|q| - 1])
    ensures var r := NormalizeName(stem + q, isDir);
            |q| <= |r| <= |stem| + |q| && r[|r| - |q|..] == q
  {
    var p := Substituted(stem, isDir);
    assert Substituted(stem + q, isDir) == p + q by {
      SubstitutedAppend(stem, q, isDir);
      SubstitutedOfSafe(q, isDir);
    }
    TrimKeepsSuffix(p, q);
  }
}
