/**
 * Choosing the directory into which the bundled Lua scripts are extracted.
 * The file system is a finite set of directory paths that exist; extracting
 * the archive and opening the folder are recorded as effects on a path.
 */
module FormApplication {

  /** What the two operations do to the outside world, in order. */
  datatype Effect = ExtractedScripts(dir: string) | OpenedInExplorer(dir: string)

  predicate IsSeparator(c: char)
  {
    c == '\\' || c == '/'
  }

  /** `Path.IsPathRooted` on Windows: a leading separator or a drive letter and colon. */
  predicate IsRooted(path: string)
  {
    (|path| >= 1 && IsSeparator(path[0])) ||
    (|path| >= 2 && path[1] == ':' && ('A' <= path[0] <= 'Z' || 'a' <= path[0] <= 'z'))
  }

  /**
   * `Path.Combine(dir, name)` on Windows: an empty `name` leaves `dir` as it
   * is, an empty `dir` or a rooted `name` gives `name`, and otherwise a
   * backslash is inserted unless `dir` already ends with a separator.
   */
  function Combine(dir: string, name: string): (r: string)
    ensures !IsRooted(name) ==> |r| >= |name| && r[|r| - |name|..] == name
    ensures name == [] ==> r == dir
  {
    if name == [] then dir
    else if IsRooted(name) || dir == [] then name
    else if IsSeparator(dir[|dir| - 1]) then dir + name
    else dir + ['\\'] + name
  }

  /** For a fixed directory, `Combine` tells relative names apart. */
  lemma CombineInjective(dir: string, a: string, b: string)
    requires !IsRooted(a) && !IsRooted(b)
    ensures Combine(dir, a) == Combine(dir, b) ==> a == b
  {
  }

  function Digit(d: nat): char
    requires d < 10
  {
    (('0' as int) + d) as char
  }

  function DigitValue(c: char): nat
  {
    if '0' <= c <= '9' then (c as int) - ('0' as int) else 0
  }

  /** The decimal form of a counter, as string interpolation writes an `int`. */
  function DecimalString(n: nat): (r: string)
    ensures |r| >= 1 && forall k :: 0 <= k < |r| ==> '0' <= r[k] <= '9'
  {
    if n < 10 then [Digit(n)] else DecimalString(n / 10) + [Digit(n % 10)]
  }

  /** Reads a string of decimal digits back. */
  function ParseDecimal(s: string): nat
  {
    if s == [] then 0 else ParseDecimal(s[..|s| - 1]) * 10 + DigitValue(s[|s| - 1])
  }

  lemma {:induction false} DecimalRoundTrip(n: nat)
    ensures ParseDecimal(DecimalString(n)) == n
  {
    var s := DecimalString(n);
    if n < 10 {
      assert s[..|s| - 1] == [];
    } else {
      DecimalRoundTrip(n / 10);
      assert s[..|s| - 1] == DecimalString(n / 10);
    }
  }

  /** The `i`-th name tried: `lua`, then `lua (1)`, `lua (2)`, … */
  function CandidateName(i: nat): string
  {
    if i == 0 then "lua" else "lua (" + DecimalString(i) + ")"
  }

  /** The `i`-th directory tried under `workDir`. */
  function Candidate(workDir: string, i: nat): string
  {
    Combine(workDir, CandidateName(i))
  }

  /** Different counters give different directories, so the search never revisits one. */
  lemma CandidateInjective(workDir: string, i: nat, j: nat)
    ensures Candidate(workDir, i) == Candidate(workDir, j) ==> i == j
  {
    var a, b := CandidateName(i), CandidateName(j);
    assert a[0] == 'l' && b[0] == 'l' && a[1] == 'u' && b[1] == 'u';
    CombineInjective(workDir, a, b);
    if a == b && i != 0 && j != 0 {
      assert DecimalString(i) == a[5..|a| - 1];
      assert DecimalString(j) == b[5..|b| - 1];
      DecimalRoundTrip(i);
      DecimalRoundTrip(j);
    }
  }

  /** `k` is the first counter whose directory does not exist. */
  ghost predicate FirstFree(workDir: string, existing: set<string>, k: nat)
  {
    Candidate(workDir, k) !in existing &&
    forall j :: 0 <= j < k ==> Candidate(workDir, j) in existing
  }

  /** At most one counter is the first free one. */
  lemma FirstFreeUnique(workDir: string, existing: set<string>, k1: nat, k2: nat)
    requires FirstFree(workDir, existing, k1) && FirstFree(workDir, existing, k2)
    ensures k1 == k2
  {
  }

  /**
   * `ExtractLuaIfNeeded`: the scripts are extracted into `workDir/lua` exactly
   * when that directory does not exist yet, and the answer says whether they were.
   */
  method ExtractLuaIfNeeded(workDir: string, existing: set<string>) returns (extracted: bool, effects: seq<Effect>)
    ensures extracted <==> Combine(workDir, "lua") !in existing
    ensures effects == if extracted then [ExtractedScripts(Combine(workDir, "lua"))] else []
    ensures extracted <==> FirstFree(workDir, existing, 0)
  {
    var luaDir := Combine(workDir, "lua");
    if luaDir in existing {
      return false, [];
    }
    effects := [ExtractedScripts(luaDir)];
    extracted := true;
  }

  /**
   * `ExtractLuaForce`: tries `lua`, `lua (1)`, `lua (2)`, … under `workDir`
   * and stops at the first directory that does not exist; the scripts are
   * extracted there and that same directory is opened.
   */
  method ExtractLuaForce(workDir: string, existing: set<string>) returns (luaDir: string, effects: seq<Effect>)
    ensures luaDir !in existing
    ensures exists k: nat :: luaDir == Candidate(workDir, k) && FirstFree(workDir, existing, k)
    ensures effects == [ExtractedScripts(luaDir), OpenedInExplorer(luaDir)]
  {
    luaDir := Combine(workDir, "lua");
    var i := 1;
    ghost var tried: set<string> := {};
    while luaDir in existing
      invariant i >= 1
      invariant luaDir == Candidate(workDir, i - 1)
      invariant forall j :: 0 <= j < i - 1 ==> Candidate(workDir, j) in existing
      invariant forall j: nat :: j >= i - 1 ==> Candidate(workDir, j) !in tried
      invariant tried <= existing
      decreases existing - tried
    {
      forall j: nat | j >= i
        ensures Candidate(workDir, j) != luaDir
      {
        CandidateInjective(workDir, j, i - 1);
      }
      tried := tried + {luaDir};
      luaDir := Combine(workDir, "lua (" + DecimalString(i) + ")");
      i := i + 1;
    }
    assert FirstFree(workDir, existing, i - 1);
    effects := [ExtractedScripts(luaDir), OpenedInExplorer(luaDir)];
  }
}
