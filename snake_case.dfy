/**
 * `toSnakeCase`: the three regular-expression passes and the upper-case turn
 * that make a header label into an ALL_CAPS_SNAKE_CASE placeholder name.
 */
module SnakeCase {
  import opened Strings

  /** JavaScript's `\s`: its white space and line terminator characters. */
  predicate IsSpace(c: char)
  {
    var n := c as int;
    (0x09 <= n <= 0x0D) || n == 0x20 || n == 0xA0 || n == 0x1680 || (0x2000 <= n <= 0x200A)
    || n == 0x2028 || n == 0x2029 || n == 0x202F || n == 0x205F || n == 0x3000 || n == 0xFEFF
  }

  /** The class `[a-zA-Z0-9_]`. */
  predicate IsWordChar(c: char)
  {
    IsLower(c) || IsUpper(c) || IsDigit(c) || c == '_'
  }

  /** The characters of an ALL_CAPS_SNAKE_CASE name. */
  predicate IsSnakeChar(c: char)
  {
    IsUpper(c) || IsDigit(c) || c == '_'
  }

  predicate IsSnake(s: string)
  {
    forall i :: 0 <= i < |s| ==> IsSnakeChar(s[i])
  }

  /**
   * `.replace(/([a-z])([A-Z])/g, "$1_$2")`: scanning from the left, a
   * lower-case letter followed by an upper-case letter is matched and
   * rewritten with an underscore between them; the scan resumes after the pair.
   */
  function SplitCamel(s: string): string
  {
    if |s| < 2 then s
    else if IsLower(s[0]) && IsUpper(s[1]) then [s[0], '_', s[1]] + SplitCamel(s[2..])
    else [s[0]] + SplitCamel(s[1..])
  }

  /** Reference: the string with an underscore put at every lower-to-upper boundary. */
  function UnderscoreAtBoundaries(s: string): string
  {
    if |s| < 2 then s
    else [s[0]] + (if IsLower(s[0]) && IsUpper(s[1]) then "_" else "") + UnderscoreAtBoundaries(s[1..])
  }

  /**
   * Because no character is both lower- and upper-case, the non-overlapping
   * global match misses no boundary.
   */
  lemma {:induction false} SplitCamelAtBoundaries(s: string)
    ensures SplitCamel(s) == UnderscoreAtBoundaries(s)
  {
    if |s| >= 2 {
      if IsLower(s[0]) && IsUpper(s[1]) {
        SplitCamelAtBoundaries(s[2..]);
        var t := s[1..];
        assert t[1..] == s[2..];
        if |t| >= 2 {
          assert UnderscoreAtBoundaries(t) == [s[1]] + UnderscoreAtBoundaries(s[2..]);
        } else {
          assert UnderscoreAtBoundaries(t) == [s[1]] + UnderscoreAtBoundaries(s[2..]);
        }
      } else {
        SplitCamelAtBoundaries(s[1..]);
      }
    }
  }

  /** The suffix of `s` after its leading white space. */
  function SkipSpaces(s: string): (r: string)
    ensures |r| <= |s|
  {
    if s != [] && IsSpace(s[0]) then SkipSpaces(s[1..]) else s
  }

  /** `.replace(/\s+/g, "_")`: every maximal run of white space becomes one underscore. */
  function CollapseSpaces(s: string): string
    decreases |s|
  {
    if s == [] then []
    else if IsSpace(s[0]) then "_" + CollapseSpaces(SkipSpaces(s[1..]))
    else [s[0]] + CollapseSpaces(s[1..])
  }

  predicate NoSpaces(s: string)
  {
    forall i :: 0 <= i < |s| ==> !IsSpace(s[i])
  }

  /** Text without white space passes through the pass unchanged, in front of whatever follows. */
  lemma {:induction false} CollapseSpacesPrefix(a: string, b: string)
    requires NoSpaces(a)
    ensures CollapseSpaces(a + b) == a + CollapseSpaces(b)
  {
    if a != [] {
      assert (a + b)[1..] == a[1..] + b;
      assert (a + b)[0] == a[0] && !IsSpace(a[0]);
      assert NoSpaces(a[1..]);
      CollapseSpacesPrefix(a[1..], b);
      assert CollapseSpaces(a + b) == [a[0]] + CollapseSpaces(a[1..] + b);
      assert [a[0]] + (a[1..] + CollapseSpaces(b)) == a + CollapseSpaces(b);
    } else {
      assert a + b == b;
    }
  }

  /** `.replace(/[^a-zA-Z0-9_]/g, "")`: every character outside the class is removed. */
  function StripNonWord(s: string): string
  {
    if s == [] then []
    else if IsWordChar(s[0]) then [s[0]] + StripNonWord(s[1..])
    else StripNonWord(s[1..])
  }

  /**
   * `.toUpperCase()`. It is applied to the output of StripNonWord, whose
   * characters are all ASCII, so ASCII case mapping is the whole effect.
   */
  function Upper(s: string): (r: string)
    ensures |r| == |s|
    ensures forall i :: 0 <= i < |s| ==> r[i] == UpperChar(s[i])
  {
    seq(|s|, i requires 0 <= i < |s| => UpperChar(s[i]))
  }

  /** `toSnakeCase(str)`. */
  function ToSnakeCase(s: string): string
  {
    Upper(StripNonWord(CollapseSpaces(SplitCamel(s))))
  }

  lemma {:induction false} StripNonWordChars(s: string)
    ensures forall i :: 0 <= i < |StripNonWord(s)| ==> IsWordChar(StripNonWord(s)[i])
  {
    if s != [] {
      StripNonWordChars(s[1..]);
    }
  }

  /** Every character of a normalised key is an upper-case ASCII letter, a digit or `_`. */
  lemma SnakeCaseChars(s: string)
    ensures IsSnake(ToSnakeCase(s))
  {
    StripNonWordChars(CollapseSpaces(SplitCamel(s)));
  }

  lemma {:induction false} CollapseSpacesNoSpace(s: string)
    ensures NoSpaces(CollapseSpaces(s))
    decreases |s|
  {
    if s != [] {
      if IsSpace(s[0]) {
        CollapseSpacesNoSpace(SkipSpaces(s[1..]));
      } else {
        CollapseSpacesNoSpace(s[1..]);
      }
    }
  }

  lemma {:induction false} SplitCamelSnake(s: string)
    requires IsSnake(s)
    ensures SplitCamel(s) == s
  {
    if |s| >= 2 {
      assert IsSnake(s[1..]);
      SplitCamelSnake(s[1..]);
    }
  }

  lemma {:induction false} CollapseSpacesSnake(s: string)
    requires IsSnake(s)
    ensures CollapseSpaces(s) == s
  {
    if s != [] {
      assert IsSnake(s[1..]);
      CollapseSpacesSnake(s[1..]);
    }
  }

  lemma {:induction false} StripNonWordWords(s: string)
    requires forall i :: 0 <= i < |s| ==> IsWordChar(s[i])
    ensures StripNonWord(s) == s
  {
    if s != [] {
      StripNonWordWords(s[1..]);
    }
  }

  /** The pass works character by character, so it distributes over concatenation. */
  lemma {:induction false} StripNonWordConcat(a: string, b: string)
    ensures StripNonWord(a + b) == StripNonWord(a) + StripNonWord(b)
  {
    if a != [] {
      assert (a + b)[1..] == a[1..] + b;
      StripNonWordConcat(a[1..], b);
    } else {
      assert a + b == b;
    }
  }

  /** An ALL_CAPS_SNAKE_CASE name is its own normal form. */
  lemma SnakeFixed(s: string)
    requires IsSnake(s)
    ensures ToSnakeCase(s) == s
  {
    SplitCamelSnake(s);
    CollapseSpacesSnake(s);
    StripNonWordWords(s);
  }

  /** Normalising a key twice is the same as normalising it once. */
  lemma SnakeIdempotent(s: string)
    ensures ToSnakeCase(ToSnakeCase(s)) == ToSnakeCase(s)
  {
    SnakeCaseChars(s);
    SnakeFixed(ToSnakeCase(s));
  }

  lemma CollapseSpacesNone(a: string)
    requires NoSpaces(a)
    ensures CollapseSpaces(a) == a
  {
    CollapseSpacesPrefix(a, []);
    assert a + [] == a;
  }

  /** Without a lower-to-upper boundary the camelCase pass changes nothing. */
  lemma {:induction false} SplitCamelNoBoundary(s: string)
    requires forall i :: 0 <= i < |s| - 1 ==> !(IsLower(s[i]) && IsUpper(s[i + 1]))
    ensures SplitCamel(s) == s
  {
    if |s| >= 2 {
      SplitCamelNoBoundary(s[1..]);
    }
  }

  // Concrete evaluations used by the examples below, one pass at a time.

  lemma SpacedSplit()
    ensures SplitCamel("Start Date") == "Start Date"
  {
    SplitCamelNoBoundary("Start Date");
  }

  lemma CamelSplit()
    ensures SplitCamel("startDate") == "start_Date"
  {
  }

  lemma StartHasNoSpaces()
    ensures NoSpaces("Start")
  {
  }

  lemma SpacedCollapsedTail()
    ensures CollapseSpaces(" Date") == "_Date"
  {
    assert SkipSpaces("Date") == "Date";
    CollapseSpacesNone("Date");
  }

  lemma SpacedCollapsed()
    ensures CollapseSpaces("Start Date") == "Start_Date"
  {
    StartHasNoSpaces();
    SpacedCollapsedTail();
    CollapseSpacesPrefix("Start", " Date");
    assert "Start" + " Date" == "Start Date";
    assert "Start" + "_Date" == "Start_Date";
  }

  lemma CamelCollapsed()
    ensures CollapseSpaces("start_Date") == "start_Date"
  {
    CollapseSpacesNone("start_Date");
  }

  lemma DateStripped()
    ensures StripNonWord("_Date") == "_Date"
  {
  }

  lemma SpacedStripped()
    ensures StripNonWord("Start_Date") == "Start_Date"
  {
    DateStripped();
    assert StripNonWord("Start") == "Start";
    StripNonWordConcat("Start", "_Date");
    assert "Start" + "_Date" == "Start_Date";
  }

  lemma CamelStripped()
    ensures StripNonWord("start_Date") == "start_Date"
  {
    DateStripped();
    assert StripNonWord("start") == "start";
    StripNonWordConcat("start", "_Date");
    assert "start" + "_Date" == "start_Date";
  }

  lemma SpacedUpper()
    ensures Upper("Start_Date") == "START_DATE"
  {
    var u := Upper("Start_Date");
    assert u[0] == 'S' && u[1] == 'T' && u[2] == 'A' && u[3] == 'R' && u[4] == 'T';
    assert u[5] == '_' && u[6] == 'D' && u[7] == 'A' && u[8] == 'T' && u[9] == 'E';
  }

  lemma CamelUpper()
    ensures Upper("start_Date") == "START_DATE"
  {
    var u := Upper("start_Date");
    assert u[0] == 'S' && u[1] == 'T' && u[2] == 'A' && u[3] == 'R' && u[4] == 'T';
    assert u[5] == '_' && u[6] == 'D' && u[7] == 'A' && u[8] == 'T' && u[9] == 'E';
  }

  /** A spaced label names the placeholder with an underscore for the space. */
  lemma StartDateSpaced()
    ensures ToSnakeCase("Start Date") == "START_DATE"
  {
    SpacedSplit();
    SpacedCollapsed();
    SpacedStripped();
    SpacedUpper();
  }

  /** The camelCase spelling of the same label names the same placeholder. */
  lemma StartDateCamel()
    ensures ToSnakeCase("startDate") == "START_DATE"
  {
    CamelSplit();
    CamelCollapsed();
    CamelStripped();
    CamelUpper();
  }
}
