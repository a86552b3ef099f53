/**
 * The file-level state and helpers of CommonUtils.kt: the global configuration
 * variables shared by the views, 32-bit integer arithmetic as Kotlin performs it,
 * and the derivation of a log tag from a class name used by warnOut and errorOut.
 */
module CommonUtils {

  import opened Wrappers

  /* ---------------------------------------------------------------------- */
  /* Kotlin Int                                                             */
  /* ---------------------------------------------------------------------- */

  const INT32_MIN: int := -0x8000_0000
  const INT32_MAX: int := 0x7FFF_FFFF

  /** A Kotlin `Int`. */
  type Int32 = x: int | INT32_MIN <= x <= INT32_MAX

  /** Two's-complement wrap-around of an exact result into a Kotlin `Int`. */
  function Wrap32(x: int): (r: Int32)
    ensures INT32_MIN <= x <= INT32_MAX ==> r == x
    ensures (x - r) % 0x1_0000_0000 == 0
  {
    (x - INT32_MIN) % 0x1_0000_0000 + INT32_MIN
  }

  /** Kotlin `a + b` on `Int`. */
  function Add32(a: Int32, b: Int32): (r: Int32)
    ensures INT32_MIN <= a + b <= INT32_MAX ==> r == a + b
    ensures (a + b - r) % 0x1_0000_0000 == 0
  {
    Wrap32(a + b)
  }

  /** Kotlin `a - b` on `Int`. */
  function Sub32(a: Int32, b: Int32): (r: Int32)
    ensures INT32_MIN <= a - b <= INT32_MAX ==> r == a - b
    ensures (a - b - r) % 0x1_0000_0000 == 0
  {
    Wrap32(a - b)
  }

  /** Kotlin `x / 2` on `Int`: the quotient is truncated toward zero. */
  function Half(x: Int32): (r: Int32)
    ensures x >= 0 ==> 0 <= x - 2 * r <= 1
    ensures x < 0 ==> 0 <= 2 * r - x <= 1
  {
    var n: int := x;
    if n >= 0 then n / 2 else -((-n) / 2)
  }

  /* ---------------------------------------------------------------------- */
  /* Global configuration                                                   */
  /* ---------------------------------------------------------------------- */

  /** The values of all global configuration variables at one moment. */
  datatype Config = Config(
    debugEnabled: bool,
    faceCameraViewWidth: Int32,
    faceCameraViewHeight: Int32,
    faceCameraViewLeftOffset: Int32,
    faceCameraViewRightOffset: Int32,
    faceCameraViewTopOffset: Int32,
    faceCameraViewBottomOffset: Int32,
    enableCirclePreview: bool,
    roundX: Int32,
    roundY: Int32,
    radius: Int32)

  /** The initial values the source gives the globals. */
  const DEFAULT_CONFIG: Config :=
    Config(false, 0, 0, 0, 0, 0, 0, false, 0, 0, 0)

  /** The top-level `internal var`s of CommonUtils.kt, as one object. */
  class Globals {
    var debugEnabled: bool
    var faceCameraViewWidth: Int32
    var faceCameraViewHeight: Int32
    var faceCameraViewLeftOffset: Int32
    var faceCameraViewRightOffset: Int32
    var faceCameraViewTopOffset: Int32
    var faceCameraViewBottomOffset: Int32
    var enableCirclePreview: bool
    var roundX: Int32
    var roundY: Int32
    var radius: Int32

    function Snapshot(): Config
      reads this
    {
      Config(debugEnabled, faceCameraViewWidth, faceCameraViewHeight,
             faceCameraViewLeftOffset, faceCameraViewRightOffset,
             faceCameraViewTopOffset, faceCameraViewBottomOffset,
             enableCirclePreview, roundX, roundY, radius)
    }

    constructor ()
      ensures Snapshot() == DEFAULT_CONFIG
    {
      debugEnabled := false;
      faceCameraViewWidth, faceCameraViewHeight := 0, 0;
      faceCameraViewLeftOffset, faceCameraViewRightOffset := 0, 0;
      faceCameraViewTopOffset, faceCameraViewBottomOffset := 0, 0;
      enableCirclePreview := false;
      roundX, roundY, radius := 0, 0, 0;
    }
  }

  /* ---------------------------------------------------------------------- */
  /* Kotlin String.split on a one-character literal delimiter               */
  /* ---------------------------------------------------------------------- */

  /**
   * `s.split(sep)`: the pieces between occurrences of `sep`, empty pieces
   * included (Kotlin keeps leading and trailing empty strings).
   */
  function Split(s: string, sep: char): (parts: seq<string>)
    ensures |parts| >= 1
    ensures forall i | 0 <= i < |parts| :: sep !in parts[i]
    decreases |s|
  {
    if |s| == 0 then [""]
    else
      var rest := Split(s[1..], sep);
      if s[0] == sep then [""] + rest
      else [[s[0]] + rest[0]] + rest[1..]
  }

  /** `parts.joinToString(sep)`: the inverse of Split. */
  function Join(parts: seq<string>, sep: char): string
    requires |parts| >= 1
  {
    if |parts| == 1 then parts[0] else parts[0] + [sep] + Join(parts[1..], sep)
  }

  lemma JoinPrefixHead(c: char, rest: seq<string>, sep: char)
    requires |rest| >= 1
    ensures Join([[c] + rest[0]] + rest[1..], sep) == [c] + Join(rest, sep)
  {
  }

  /** Joining the pieces of a split restores the string. */
  lemma {:induction false} JoinSplit(s: string, sep: char)
    ensures Join(Split(s, sep), sep) == s
    decreases |s|
  {
    if |s| > 0 {
      var rest := Split(s[1..], sep);
      JoinSplit(s[1..], sep);
      if s[0] == sep {
        assert ([""] + rest)[1..] == rest;
        assert s == [sep] + s[1..];
      } else {
        JoinPrefixHead(s[0], rest, sep);
        assert s == [s[0]] + s[1..];
      }
    }
  }

  lemma {:induction false} SplitFree(a: string, sep: char)
    requires sep !in a
    ensures Split(a, sep) == [a]
    decreases |a|
  {
    if |a| > 0 {
      SplitFree(a[1..], sep);
      assert [a[0]] + a[1..] == a;
    }
  }

  lemma {:induction false} SplitAcross(a: string, b: string, sep: char)
    requires sep !in a
    ensures Split(a + [sep] + b, sep) == [a] + Split(b, sep)
    decreases |a|
  {
    var s := a + [sep] + b;
    if |a| == 0 {
      assert s[1..] == b;
    } else {
      assert s[1..] == a[1..] + [sep] + b;
      SplitAcross(a[1..], b, sep);
      assert [a[0]] + a[1..] == a;
    }
  }

  /** Splitting a join of delimiter-free pieces gives the pieces back. */
  lemma {:induction false} SplitJoin(parts: seq<string>, sep: char)
    requires |parts| >= 1
    requires forall i | 0 <= i < |parts| :: sep !in parts[i]
    ensures Split(Join(parts, sep), sep) == parts
    decreases |parts|
  {
    if |parts| == 1 {
      SplitFree(parts[0], sep);
    } else {
      SplitJoin(parts[1..], sep);
      SplitAcross(parts[0], Join(parts[1..], sep), sep);
      assert [parts[0]] + parts[1..] == parts;
    }
  }

  /** A string splits into two or more pieces exactly when it holds the delimiter. */
  lemma {:induction false} SplitCount(s: string, sep: char)
    ensures sep in s <==> |Split(s, sep)| >= 2
    decreases |s|
  {
    if |s| > 0 {
      SplitCount(s[1..], sep);
      assert sep in s <==> s[0] == sep || sep in s[1..];
    }
  }

  /** Every character of a piece comes from the split string. */
  lemma {:induction false} SplitPartChars(s: string, sep: char, i: nat, c: char)
    requires i < |Split(s, sep)| && c in Split(s, sep)[i]
    ensures c in s
    decreases |s|
  {
    if |s| > 0 {
      var rest := Split(s[1..], sep);
      if s[0] == sep {
        SplitPartChars(s[1..], sep, i - 1, c);
      } else if i == 0 {
        if c != s[0] {
          SplitPartChars(s[1..], sep, 0, c);
        }
      } else {
        SplitPartChars(s[1..], sep, i, c);
      }
    }
  }

  /* ---------------------------------------------------------------------- */
  /* Log tags                                                               */
  /* ---------------------------------------------------------------------- */

  /** `Build.VERSION_CODES.O`. */
  const SDK_O: int := 26

  /** What the reflection calls in warnOut/errorOut report about the receiver's class. */
  datatype ClassInfo = ClassInfo(
    simpleName: string,              // javaClass.simpleName
    declaredClassNames: seq<string>, // simpleName of each of javaClass.declaredClasses
    typeName: string,                // javaClass.typeName
    name: string)                    // javaClass.name

  datatype Priority = Warn | Error

  /** One `Log.w` or `Log.e` call. */
  datatype LogLine = LogLine(priority: Priority, tag: string, msg: string)

  /**
   * The pre-O fallback: the last `.`-piece of the binary class name, and of
   * that, when it holds `$`, the second-to-last `$`-piece.
   */
  function FallbackTag(name: string): string
  {
    var split1 := Split(name, '.');
    var s := split1[|split1| - 1];
    if '$' in s then
      var split2 := Split(s, '$');
      if |split2| >= 2 then split2[|split2| - 2] else split2[|split2| - 1]
    else s
  }

  /** The tag warnOut and errorOut log under. */
  function TagFor(cls: ClassInfo, sdkInt: int): string
  {
    if cls.simpleName != "" then cls.simpleName
    else if |cls.declaredClassNames| > 0 then cls.declaredClassNames[0]
    else if sdkInt >= SDK_O then cls.typeName
    else FallbackTag(cls.name)
  }

  /** A non-empty simple name is the tag, whatever else is known about the class. */
  lemma SimpleNameIsTag(cls: ClassInfo, sdkInt: int)
    requires cls.simpleName != ""
    ensures TagFor(cls, sdkInt) == cls.simpleName
  {
  }

  /** The last piece of a split is what follows the last delimiter. */
  lemma {:induction false} SplitLastAcross(a: string, b: string, sep: char)
    requires sep !in b
    ensures var parts := Split(a + [sep] + b, sep); parts[|parts| - 1] == b
    decreases |a|
  {
    var s := a + [sep] + b;
    if |a| == 0 {
      assert s[1..] == b;
      SplitFree(b, sep);
    } else {
      assert s[1..] == a[1..] + [sep] + b;
      SplitLastAcross(a[1..], b, sep);
      SplitCount(s[1..], sep);
      assert s[1..][|a| - 1] == sep;
    }
  }

  /** The last `.`-piece that the fallback starts from is what follows the last `.`. */
  lemma LastDotPiece(name: string)
    ensures var split1 := Split(name, '.');
      var s := split1[|split1| - 1];
      '.' !in s &&
      ('.' !in name ==> s == name) &&
      ('.' in name ==> s == name[LastIndexOf(name, '.') + 1..])
  {
    if '.' !in name {
      SplitFree(name, '.');
    } else {
      var k := LastIndexOf(name, '.');
      assert name == name[..k] + ['.'] + name[k + 1..];
      SplitLastAcross(name[..k], name[k + 1..], '.');
    }
  }

  function LastIndexOf(s: string, c: char): (k: nat)
    requires c in s
    ensures k < |s| && s[k] == c && c !in s[k + 1..]
  {
    if s[|s| - 1] == c then |s| - 1
    else
      assert c in s[..|s| - 1] by {
        var j :| 0 <= j < |s| && s[j] == c;
        assert s[..|s| - 1][j] == c;
      }
      var k := LastIndexOf(s[..|s| - 1], c);
      assert s[k + 1..] == s[..|s| - 1][k + 1..] + [s[|s| - 1]];
      k
  }

  /** The `split2.size < 2` branch of the fallback cannot be taken. */
  lemma DollarPieceHasTwoParts(s: string)
    requires '$' in s
    ensures |Split(s, '$')| >= 2
  {
    SplitCount(s, '$');
  }

  /** The fallback tag holds neither `.` nor `$`. */
  lemma FallbackTagHasNoSeparators(name: string)
    ensures '.' !in FallbackTag(name) && '$' !in FallbackTag(name)
  {
    var split1 := Split(name, '.');
    var s := split1[|split1| - 1];
    if '$' in s {
      var split2 := Split(s, '$');
      DollarPieceHasTwoParts(s);
      var t := split2[|split2| - 2];
      if '.' in t {
        SplitPartChars(s, '$', |split2| - 2, '.');
      }
    }
  }

  /** An inner class's fallback tag is its outer class's simple name. */
  lemma FallbackTagOfInnerClass(pkg: string, outer: string, inner: string)
    requires '.' !in outer && '$' !in outer && '.' !in inner && '$' !in inner
    ensures FallbackTag(pkg + "." + outer + "$" + inner) == outer
  {
    var s := outer + "$" + inner;
    assert pkg + "." + outer + "$" + inner == pkg + ['.'] + s;
    SplitLastAcross(pkg, s, '.');
    assert s == outer + ['$'] + inner;
    SplitAcross(outer, inner, '$');
    SplitFree(inner, '$');
  }

  /* ---------------------------------------------------------------------- */
  /* warnOut / errorOut                                                     */
  /* ---------------------------------------------------------------------- */

  /**
   * `Any.warnOut(msg)`: with debugging on, one `Log.w` under the derived tag;
   * with it off, nothing. The derivation is written out here as the source does.
   */
  method WarnOut(g: Globals, self: ClassInfo, sdkInt: int, msg: string) returns (line: Option<LogLine>)
    ensures !g.debugEnabled ==> line == None
    ensures g.debugEnabled ==> line == Some(LogLine(Warn, TagFor(self, sdkInt), msg))
  {
    if !g.debugEnabled {
      return None;
    }
    var simpleName := self.simpleName;
    if simpleName == "" {
      var declaredClasses := self.declaredClassNames;
      if |declaredClasses| > 0 {
        simpleName := declaredClasses[0];
      } else if sdkInt >= SDK_O {
        simpleName := self.typeName;
      } else {
        var split1 := Split(self.name, '.');
        var s := split1[|split1| - 1];
        if '$' in s {
          var split2 := Split(s, '$');
          if |split2| >= 2 {
            simpleName := split2[|split2| - 2];
          } else {
            simpleName := split2[|split2| - 1];
          }
        } else {
          simpleName := s;
        }
      }
    }
    line := Some(LogLine(Warn, simpleName, msg));
  }

  /**
   * `Any.errorOut(msg)`: the source repeats warnOut's derivation, logging with
   * `Log.e`; the contract shows the two copies agree on every input.
   */
  method ErrorOut(g: Globals, self: ClassInfo, sdkInt: int, msg: string) returns (line: Option<LogLine>)
    ensures !g.debugEnabled ==> line == None
    ensures g.debugEnabled ==> line == Some(LogLine(Error, TagFor(self, sdkInt), msg))
  {
    if !g.debugEnabled {
      return None;
    }
    var simpleName := self.simpleName;
    if simpleName == "" {
      var declaredClasses := self.declaredClassNames;
      if |declaredClasses| > 0 {
        simpleName := declaredClasses[0];
      } else if sdkInt >= SDK_O {
        simpleName := self.typeName;
      } else {
        var split1 := Split(self.name, '.');
        var s := split1[|split1| - 1];
        if '$' in s {
          var split2 := Split(s, '$');
          if |split2| >= 2 {
            simpleName := split2[|split2| - 2];
          } else {
            simpleName := split2[|split2| - 1];
          }
        } else {
          simpleName := s;
        }
      }
    }
    line := Some(LogLine(Error, simpleName, msg));
  }
}
