/** utils.py: canonical forms of wallet addresses and aliases, and the alias
    grammar `^@[a-zA-Z0-9_]{3,20}$`. */
module Utils {
  import opened PyText

  /** The dynamically typed argument of `normalize_address`: a `str` or
      anything else. */
  datatype PyArg = Str(s: string) | NonStr

  /** `normalize_address(address, is_alias)`. Address mode trims and
      lowercases; alias mode then also drops every leading `@`. */
  function NormalizeAddress(address: PyArg, isAlias: bool): (r: string)
    ensures address.NonStr? ==> r == ""
    ensures address.Str? ==> |r| <= |address.s|
    ensures address.Str? && !isAlias ==> r == Lower(Strip(address.s))
    ensures address.Str? && !isAlias ==> r == [] || (!IsSpace(r[0]) && !IsSpace(r[|r| - 1]))
    ensures address.Str? && isAlias ==> r == [] || r[0] != '@'
  {
    match address
    case NonStr => ""
    case Str(s) =>
      var t := Strip(s);
      LowerTrimmed(t);
      if isAlias then LStripChar(Lower(t), '@') else Lower(t)
  }

  /** Both modes produce no ASCII capitals. */
  lemma NormalizedHasNoCapitals(address: PyArg, isAlias: bool)
    ensures var r := NormalizeAddress(address, isAlias);
            forall i :: 0 <= i < |r| ==> !IsUpper(r[i])
  {
    if address.Str? {
      var l := Lower(Strip(address.s));
      var r := LStripChar(l, '@');
      assert forall i :: 0 <= i < |r| ==> r[i] == l[|l| - |r| + i];
    }
  }

  /** Address mode is idempotent: a canonical address is its own canonical form. */
  lemma AddressModeIdempotent(s: string)
    ensures NormalizeAddress(Str(NormalizeAddress(Str(s), false)), false)
            == NormalizeAddress(Str(s), false)
  {
    var r := NormalizeAddress(Str(s), false);
    NormalizedHasNoCapitals(Str(s), false);
    CanonicalFixed(r);
  }

  /** A trimmed string without capitals is unchanged by trimming and lowering. */
  lemma CanonicalFixed(r: string)
    requires r == [] || (!IsSpace(r[0]) && !IsSpace(r[|r| - 1]))
    requires forall i :: 0 <= i < |r| ==> !IsUpper(r[i])
    ensures Lower(Strip(r)) == r
  {
    StripTrimmed(r);
    LowerOfLower(r);
  }

  /** A string with no ASCII capitals is its own lowercase form. */
  lemma LowerOfLower(s: string)
    requires forall i :: 0 <= i < |s| ==> !IsUpper(s[i])
    ensures Lower(s) == s
  {
  }

  /** The character class `[a-zA-Z0-9_]`. */
  predicate IsAliasChar(c: char) {
    'a' <= c <= 'z' || 'A' <= c <= 'Z' || '0' <= c <= '9' || c == '_'
  }

  /** The part of an alias after `@`: 3 to 20 characters of the class. */
  predicate IsAliasName(w: string) {
    3 <= |w| <= 20 && forall i :: 0 <= i < |w| ==> IsAliasChar(w[i])
  }

  /** What `re.match(r'^@[a-zA-Z0-9_]{3,20}$', s)` accepts: `@` and a name,
      optionally followed by one newline, since Python's `$` also matches
      just before a final `"\n"`. */
  predicate AliasGrammar(s: string) {
    (|s| >= 1 && s[0] == '@' && IsAliasName(s[1..]))
    || (|s| >= 2 && s[0] == '@' && s[|s| - 1] == '\n' && IsAliasName(s[1..|s| - 1]))
  }

  /** Greedy `[a-zA-Z0-9_]{0,cap}` from position `i`. */
  function AliasRun(s: string, i: nat, cap: nat): (n: nat)
    requires i <= |s|
    ensures i + n <= |s| && n <= cap
    ensures forall k :: i <= k < i + n ==> IsAliasChar(s[k])
    ensures n < cap ==> i + n == |s| || !IsAliasChar(s[i + n])
    decreases cap
  {
    if cap == 0 || i == |s| || !IsAliasChar(s[i]) then 0
    else 1 + AliasRun(s, i + 1, cap - 1)
  }

  /** Python's `$` at position `j`: the end, or just before a final newline. */
  predicate DollarAt(s: string, j: nat) {
    j == |s| || (j == |s| - 1 && s[j] == '\n')
  }

  /** `is_valid_alias`: the regular expression run as the matcher does,
      greedy repetition followed by the `$` test. Backtracking to a shorter
      repetition cannot help, since the next character is then a class
      character, neither the end nor a newline. */
  function IsValidAlias(alias: string): (r: bool)
    ensures r <==> AliasGrammar(alias)
  {
    if |alias| >= 1 && alias[0] == '@' then
      var n := AliasRun(alias, 1, 20);
      var r := 3 <= n && DollarAt(alias, 1 + n);
      AliasMatcherCorrect(alias, n);
      r
    else false
  }

  lemma AliasMatcherCorrect(s: string, n: nat)
    requires |s| >= 1 && s[0] == '@' && n == AliasRun(s, 1, 20)
    ensures (3 <= n && DollarAt(s, 1 + n)) <==> AliasGrammar(s)
  {
    if 3 <= n && DollarAt(s, 1 + n) {
      MatchIsGrammar(s, n);
    }
    if IsAliasName(s[1..]) {
      GrammarPlainMatches(s, n);
    } else if |s| >= 2 && s[|s| - 1] == '\n' && IsAliasName(s[1..|s| - 1]) {
      GrammarNewlineMatches(s, n);
    }
  }

  lemma MatchIsGrammar(s: string, n: nat)
    requires |s| >= 1 && s[0] == '@' && n == AliasRun(s, 1, 20)
    requires 3 <= n && DollarAt(s, 1 + n)
    ensures AliasGrammar(s)
  {
    var w := s[1..1 + n];
    assert forall k :: 0 <= k < n ==> w[k] == s[k + 1];
    assert IsAliasName(w);
  }

  lemma GrammarPlainMatches(s: string, n: nat)
    requires |s| >= 1 && s[0] == '@' && n == AliasRun(s, 1, 20)
    requires IsAliasName(s[1..])
    ensures 3 <= n && DollarAt(s, 1 + n)
  {
    forall k | 1 <= k < |s| ensures IsAliasChar(s[k]) { assert s[1..][k - 1] == s[k]; }
  }

  lemma GrammarNewlineMatches(s: string, n: nat)
    requires |s| >= 2 && s[0] == '@' && n == AliasRun(s, 1, 20)
    requires s[|s| - 1] == '\n' && IsAliasName(s[1..|s| - 1])
    ensures 3 <= n && DollarAt(s, 1 + n)
  {
    forall k | 1 <= k < |s| - 1 ensures IsAliasChar(s[k]) { assert s[1..|s| - 1][k - 1] == s[k]; }
    assert !IsAliasChar(s[|s| - 1]);
  }

  /** Alias-mode normalisation of a valid alias is its name, lowercased:
      3 to 20 characters of `[a-z0-9_]`. */
  lemma ValidAliasNormalizes(s: string)
    requires IsValidAlias(s)
    ensures var r := NormalizeAddress(Str(s), true);
            3 <= |r| <= 20
            && forall i :: 0 <= i < |r| ==> ('a' <= r[i] <= 'z' || '0' <= r[i] <= '9' || r[i] == '_')
  {
    var w := if IsAliasName(s[1..]) then s[1..] else s[1..|s| - 1];
    StripValidAlias(s, w);
    NormalizeAtName(w);
    assert NormalizeAddress(Str(s), true) == Lower(w);
  }

  /** Lowercasing `@name` and dropping the `@` leaves the lowered name. */
  lemma NormalizeAtName(w: string)
    requires IsAliasName(w)
    ensures LStripChar(Lower("@" + w), '@') == Lower(w)
    ensures forall i :: 0 <= i < |w| ==>
              ('a' <= Lower(w)[i] <= 'z' || '0' <= Lower(w)[i] <= '9' || Lower(w)[i] == '_')
  {
    var at := "@";
    assert Lower(at) == at by { LowerOfLower(at); }
    assert Lower(at + w) == at + Lower(w) by { LowerConcat(at, w); }
    assert (at + Lower(w))[1..] == Lower(w);
    assert Lower(w) == [] || Lower(w)[0] != '@';
  }

  /** Trimming a valid alias leaves `@` and its name: the only whitespace it
      can carry is the newline Python's `$` lets through. */
  lemma StripValidAlias(s: string, w: string)
    requires AliasGrammar(s)
    requires w == if IsAliasName(s[1..]) then s[1..] else s[1..|s| - 1]
    ensures IsAliasName(w) && Strip(s) == "@" + w
  {
    AtNameTrimmed(w);
    if IsAliasName(s[1..]) {
      assert s == "@" + w;
    } else {
      StripNewline("@" + w);
      assert s == "@" + w + "\n";
    }
  }

  /** The first and last characters of an alias name are not whitespace. */
  lemma AliasNameNotSpace(w: string)
    requires IsAliasName(w)
    ensures !IsSpace(w[0]) && !IsSpace(w[|w| - 1])
  {
    assert IsAliasChar(w[0]) && IsAliasChar(w[|w| - 1]);
  }

  lemma AtNameTrimmed(w: string)
    requires IsAliasName(w)
    ensures var t := "@" + w; !IsSpace(t[0]) && !IsSpace(t[|t| - 1]) && Strip(t) == t
  {
    var t := "@" + w;
    AliasNameNotSpace(w);
    assert t[|t| - 1] == w[|w| - 1];
    StripTrimmed(t);
  }

  /** A trailing newline is trimmed away. */
  lemma StripNewline(t: string)
    requires |t| > 0 && !IsSpace(t[0]) && !IsSpace(t[|t| - 1])
    ensures Strip(t + "\n") == t
  {
    LStripKeepsNewline(t);
    RStripDropsNewline(t);
  }

  lemma LStripKeepsNewline(t: string)
    requires |t| > 0 && !IsSpace(t[0])
    ensures LStrip(t + "\n") == t + "\n"
  {
  }

  lemma RStripDropsNewline(t: string)
    requires |t| > 0 && !IsSpace(t[|t| - 1])
    ensures RStrip(t + "\n") == t
  {
    var s := t + "\n";
    assert s[..|s| - 1] == t;
  }

  /** A canonical name: non-empty, no surrounding whitespace, no capitals,
      not starting with `@` (for instance `bob`). */
  predicate PlainName(w: string) {
    w != [] && !IsSpace(w[0]) && !IsSpace(w[|w| - 1]) && w[0] != '@'
    && forall i :: 0 <= i < |w| ==> !IsUpper(w[i])
  }

  /** Alias mode is not idempotent when whitespace follows the `@`: `"@ bob"`
      becomes `" bob"`, which normalises further to `"bob"`. */
  lemma AliasModeNotIdempotent(w: string)
    requires PlainName(w)
    ensures NormalizeAddress(Str("@ " + w), true) == " " + w
    ensures NormalizeAddress(Str(" " + w), true) == w
    ensures NormalizeAddress(Str(NormalizeAddress(Str("@ " + w), true)), true) != NormalizeAddress(Str("@ " + w), true)
  {
    AtSpaceNormalizes(w);
    SpaceNameNormalizes(w);
    assert |w| != |" " + w|;
  }

  lemma AtSpaceNormalizes(w: string)
    requires PlainName(w)
    ensures NormalizeAddress(Str("@ " + w), true) == " " + w
  {
    var s := "@ " + w;
    AtSpaceTrimmed(w, s);
    AtSpaceLower(w, s);
    AtSpaceLStrip(w, s);
    AliasModeSteps(s);
  }

  lemma AliasModeSteps(s: string)
    ensures NormalizeAddress(Str(s), true) == LStripChar(Lower(Strip(s)), '@')
  {
  }

  lemma AtSpaceTrimmed(w: string, s: string)
    requires PlainName(w) && s == "@ " + w
    ensures Strip(s) == s
  {
    assert s[0] == '@' && s[|s| - 1] == w[|w| - 1];
    StripTrimmed(s);
  }

  lemma AtSpaceLower(w: string, s: string)
    requires PlainName(w) && s == "@ " + w
    ensures Lower(s) == s
  {
    assert s[0] == '@' && s[1] == ' ';
    assert forall i :: 2 <= i < |s| ==> s[i] == w[i - 2];
    LowerOfLower(s);
  }

  lemma AtSpaceLStrip(w: string, s: string)
    requires PlainName(w) && s == "@ " + w
    ensures LStripChar(s, '@') == " " + w
  {
    assert s[0] == '@' && s[1..] == " " + w;
    assert (" " + w)[0] == ' ';
  }

  lemma SpaceNameNormalizes(w: string)
    requires PlainName(w)
    ensures NormalizeAddress(Str(" " + w), true) == w
  {
    var s := " " + w;
    assert s[1..] == w;
    assert LStrip(s) == LStrip(w) == w;
    StripTrimmed(w);
    LowerOfLower(w);
  }
}
