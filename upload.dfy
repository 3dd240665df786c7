/** The upload helper of app/utils.py: the extension check on the client's file
    name, and where the accepted file is stored. Writing the bytes and creating
    the folders are left to the caller of the model. */
module Upload {
  import opened Http
  import opened Text

  /** `str.lower()` on one character, for ASCII letters. */
  function LowerChar(c: char): (l: char)
    ensures !IsUpper(l)
    ensures IsUpper(c) ==> l as int == c as int + 32
    ensures !IsUpper(c) ==> l == c
  {
    if IsUpper(c) then (c as int + 32) as char else c
  }

  /** `str.lower()`: every ASCII upper-case letter is replaced by its lower-case form. */
  function Lower(s: string): (r: string)
    ensures |r| == |s|
    ensures forall i :: 0 <= i < |s| ==> r[i] == LowerChar(s[i])
  {
    if |s| == 0 then "" else [LowerChar(s[0])] + Lower(s[1..])
  }

  /** Lowering works character by character, so it distributes over concatenation. */
  lemma LowerConcat(a: string, b: string)
    ensures Lower(a + b) == Lower(a) + Lower(b)
  {
  }

  /** Lowering twice is lowering once. */
  lemma LowerIdempotent(s: string)
    ensures Lower(Lower(s)) == Lower(s)
  {
  }

  /** `str.split(sep)`: the pieces between the separators, empty pieces kept. */
  function Split(s: string, sep: char): (parts: seq<string>)
    ensures |parts| >= 1
    decreases |s|
  {
    if |s| == 0 then [""]
    else
      var rest := Split(s[1..], sep);
      if s[0] == sep then [""] + rest else [[s[0]] + rest[0]] + rest[1..]
  }

  /** `sep.join(parts)`. */
  function Join(parts: seq<string>, sep: char): string
    requires |parts| >= 1
  {
    if |parts| == 1 then parts[0] else parts[0] + [sep] + Join(parts[1..], sep)
  }

  /** Splitting and joining on the same separator gives the string back. */
  lemma {:induction false} JoinSplit(s: string, sep: char)
    ensures Join(Split(s, sep), sep) == s
    decreases |s|
  {
    if |s| > 0 {
      var rest := Split(s[1..], sep);
      JoinSplit(s[1..], sep);
      if s[0] == sep {
        assert Split(s, sep)[1..] == rest;
      } else {
        assert Split(s, sep)[1..] == rest[1..];
        if |rest| > 1 {
          assert rest == [rest[0]] + rest[1..];
        }
      }
    }
  }

  /** A string without the separator is a single piece. */
  lemma {:induction false} SplitFree(s: string, sep: char)
    requires Free(s, sep)
    ensures Split(s, sep) == [s]
    decreases |s|
  {
    if |s| > 0 {
      assert Free(s[1..], sep) by {
        forall j | 0 <= j < |s| - 1 ensures s[1..][j] != sep {
          assert s[1..][j] == s[j + 1];
        }
      }
      SplitFree(s[1..], sep);
      assert s == [s[0]] + s[1..];
    }
  }

  /** A string holding the separator splits into at least two pieces. */
  lemma {:induction false} SplitAtSep(s: string, sep: char, k: int)
    requires 0 <= k < |s| && s[k] == sep
    ensures |Split(s, sep)| >= 2
    decreases |s|
  {
    if k > 0 && s[0] != sep {
      assert s[1..][k - 1] == s[k];
      SplitAtSep(s[1..], sep, k - 1);
    }
  }

  /** The last piece of a split is the text after the last separator. */
  lemma {:induction false} SplitLastPiece(s: string, sep: char, k: int)
    requires 0 <= k < |s| && s[k] == sep
    requires forall j :: k < j < |s| ==> s[j] != sep
    ensures var parts := Split(s, sep); parts[|parts| - 1] == s[k + 1..]
    decreases |s|
  {
    var t := s[1..];
    if k == 0 {
      assert Free(t, sep) by {
        forall j | 0 <= j < |t| ensures t[j] != sep {
          assert t[j] == s[j + 1];
        }
      }
      SplitFree(t, sep);
    } else {
      forall j | k - 1 < j < |t| ensures t[j] != sep {
        assert t[j] == s[j + 1];
      }
      assert t[k - 1] == s[k];
      SplitLastPiece(t, sep, k - 1);
      SplitAtSep(t, sep, k - 1);
      assert t[k..] == s[k + 1..];
    }
  }

  /** `file.filename.lower().split('.')[-1]` */
  function Extension(filename: string): string
  {
    var parts := Split(Lower(filename), '.');
    parts[|parts| - 1]
  }

  /** The text after the last dot of `s`, or all of `s` when it has none. */
  function AfterLastDot(s: string): string
  {
    s[LastIndexOf(s, '.') + 1..]
  }

  /** Lowering keeps dots where they are and adds none. */
  lemma LowerKeepsDots(s: string, i: int)
    requires 0 <= i < |s|
    ensures Lower(s)[i] == '.' <==> s[i] == '.'
  {
  }

  /** With a last dot at position k of the lowered name, the extension is what follows it. */
  lemma ExtensionAfterDot(filename: string, k: int)
    requires var l := Lower(filename);
      0 <= k < |l| && l[k] == '.' && forall j :: k < j < |l| ==> l[j] != '.'
    ensures Extension(filename) == Lower(filename)[k + 1..]
  {
    SplitLastPiece(Lower(filename), '.', k);
  }

  /** A name without a dot is its own extension, lowered. */
  lemma NoDotWholeName(filename: string)
    requires Free(filename, '.')
    ensures Extension(filename) == Lower(filename)
  {
    var l := Lower(filename);
    forall i | 0 <= i < |l| ensures l[i] != '.' {
      LowerKeepsDots(filename, i);
    }
    SplitFree(l, '.');
  }

  /** The extension is the lowered name after its last dot, or all of it when
      there is none. */
  lemma ExtensionAfterLastDot(filename: string)
    ensures Extension(filename) == AfterLastDot(Lower(filename))
  {
    var l := Lower(filename);
    var k := LastIndexOf(l, '.');
    if k >= 0 {
      ExtensionAfterDot(filename, k);
    } else {
      assert Free(l, '.');
      SplitFree(l, '.');
      assert l[k + 1..] == l;
    }
  }

  /** A suffix of a string without upper-case letters, starting after the
      last dot, holds neither a dot nor an upper-case letter. */
  lemma TailClean(l: string, from: int)
    requires 0 <= from <= |l|
    requires forall j :: from <= j < |l| ==> l[j] != '.'
    requires forall j :: 0 <= j < |l| ==> !IsUpper(l[j])
    ensures Free(l[from..], '.')
    ensures forall i :: 0 <= i < |l[from..]| ==> !IsUpper(l[from..][i])
  {
    var t := l[from..];
    forall i | 0 <= i < |t| ensures !IsUpper(t[i]) && t[i] != '.' {
      assert t[i] == l[from + i];
    }
  }

  /** The extension holds no dot and no upper-case letter. */
  lemma ExtensionIsClean(filename: string)
    ensures Free(Extension(filename), '.')
    ensures forall i :: 0 <= i < |Extension(filename)| ==> !IsUpper(Extension(filename)[i])
  {
    var l := Lower(filename);
    var k := LastIndexOf(l, '.');
    assert forall j :: 0 <= j < |l| ==> !IsUpper(l[j]);
    assert forall j :: k + 1 <= j < |l| ==> l[j] != '.';
    TailClean(l, k + 1);
    ExtensionAfterLastDot(filename);
    assert Extension(filename) == l[k + 1..];
  }

  /** Lowering a dotted name lowers both sides of the dot. */
  lemma LowerDotted(base: string, ext: string)
    ensures Lower(base + "." + ext) == Lower(base) + "." + Lower(ext)
  {
    LowerConcat(base + ".", ext);
    LowerConcat(base, ".");
  }

  /** Whatever precedes a separator does not change the last piece after it. */
  lemma {:induction false} SplitLastAfterSep(a: string, sep: char, b: string)
    ensures var parts, tail := Split(a + [sep] + b, sep), Split(b, sep);
      parts[|parts| - 1] == tail[|tail| - 1]
    decreases |a|
  {
    var s := a + [sep] + b;
    if |a| == 0 {
      assert s[1..] == b;
    } else {
      assert s[1..] == a[1..] + [sep] + b;
      SplitLastAfterSep(a[1..], sep, b);
      SplitAtSep(s[1..], sep, |a| - 1);
    }
  }

  /** A name made of anything, a dot and a dot-free part has that part,
      lowered, as its extension: "a.tar.gz" is judged by "gz". */
  lemma ExtensionOfDotted(base: string, ext: string)
    requires Free(ext, '.')
    ensures Extension(base + "." + ext) == Lower(ext)
  {
    var le := Lower(ext);
    LowerDotted(base, ext);
    SplitLastAfterSep(Lower(base), '.', le);
    forall j | 0 <= j < |le| ensures le[j] != '.' {
      LowerKeepsDots(ext, j);
    }
    SplitFree(le, '.');
  }

  /** The check on the file name: when a non-empty list of allowed extensions
      is given, the extension must be one of them, or the request is refused
      with 400 "Invalid file format". */
  function CheckExtension(filename: string, allowed: Option<seq<string>>): Result<()>
  {
    if allowed.Some? && |allowed.value| > 0 && Extension(filename) !in allowed.value
    then Err(BadRequest("Invalid file format"))
    else Ok(())
  }

  /** A file passes exactly when no non-empty list is given or the lowered
      text after the last dot of its name is listed. */
  lemma CheckDecides(filename: string, allowed: Option<seq<string>>)
    ensures CheckExtension(filename, allowed).Ok? <==>
      allowed.None? || allowed.value == [] || AfterLastDot(Lower(filename)) in allowed.value
  {
    ExtensionAfterLastDot(filename);
  }

  /** What the helper reports for an accepted file: the new name, and the
      parts its path is joined from below the project directory. */
  datatype Stored = Stored(filename: string, path: seq<string>)

  /** The upload helper: the check first; an accepted file is reported under
      the new name, whatever the client called it, with the path joined from
      uploads, uploadFolder and newFilename. */
  function UploadFile(filename: string, allowed: Option<seq<string>>, uploadFolder: string, newFilename: string): (r: Result<Stored>)
    ensures r.Ok? <==> allowed.None? || allowed.value == [] || AfterLastDot(Lower(filename)) in allowed.value
    ensures r.Err? ==> r.error == BadRequest("Invalid file format")
    ensures r.Ok? ==> r.value.filename == newFilename && r.value.path == ["uploads", uploadFolder, newFilename]
  {
    CheckDecides(filename, allowed);
    match CheckExtension(filename, allowed)
    case Err(e) => Err(e)
    case Ok(_) => Ok(Stored(newFilename, ["uploads", uploadFolder, newFilename]))
  }

  /** No list, or an empty one, lets every file through. */
  lemma NoListAcceptsAll(filename: string, allowed: Option<seq<string>>)
    requires allowed.None? || allowed.value == []
    ensures CheckExtension(filename, allowed).Ok?
  {
  }

  /** With a non-empty list, a file passes exactly when the lowered text after
      the last dot of its name is listed; otherwise it is refused with 400. */
  lemma ListDecides(filename: string, allowed: seq<string>)
    requires |allowed| > 0
    ensures CheckExtension(filename, Some(allowed)).Ok? <==> AfterLastDot(Lower(filename)) in allowed
    ensures CheckExtension(filename, Some(allowed)).Err? ==> CheckExtension(filename, Some(allowed)).error.Code() == 400
  {
    ListDecidesByExtension(filename, allowed);
    ExtensionAfterLastDot(filename);
  }

  /** The same decision, read off the extension as the check computes it. */
  lemma ListDecidesByExtension(filename: string, allowed: seq<string>)
    requires |allowed| > 0
    ensures CheckExtension(filename, Some(allowed)).Ok? <==> Extension(filename) in allowed
    ensures CheckExtension(filename, Some(allowed)).Err? ==> CheckExtension(filename, Some(allowed)).error.Code() == 400
  {
  }

  /** The case of the client's file name does not matter. */
  lemma FilenameCaseIgnored(filename: string, allowed: Option<seq<string>>)
    ensures CheckExtension(Lower(filename), allowed) == CheckExtension(filename, allowed)
  {
    LowerIdempotent(filename);
  }

  /** An allowed entry holding an upper-case letter never matches any file. */
  lemma UpperEntryNeverMatches(filename: string, entry: string, i: int)
    requires 0 <= i < |entry| && IsUpper(entry[i])
    ensures Extension(filename) != entry
  {
    ExtensionIsClean(filename);
  }

  /** "A.PNG" passes a list holding "png" and is refused by one holding only "PNG". */
  lemma UpperCaseNameExample()
    ensures CheckExtension("A.PNG", Some(["png"])) == Ok(())
    ensures CheckExtension("A.PNG", Some(["PNG"])) == Err(BadRequest("Invalid file format"))
  {
    var l := Lower("PNG");
    assert l[0] == 'p' && l[1] == 'n' && l[2] == 'g';
    assert l == "png";
    ExtensionOfDotted("A", "PNG");
    assert "A" + "." + "PNG" == "A.PNG";
    assert Extension("A.PNG") == "png";
    assert "png" != "PNG" by { assert "png"[0] != "PNG"[0]; }
  }
}
