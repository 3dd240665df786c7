/** The two validators of the user package (Utils.is_valid_email and
    Utils.is_valid_password in app/user/utils.py). Each is one regular
    expression matched from the start of the string and anchored at its end;
    the predicates below state what a match of that expression is, piece by
    piece, over ASCII character classes. */
module UserUtils {
  import opened Text

  /** The character classes the two expressions use. */
  datatype CharClass =
    | Upper          // [A-Z]
    | Lower          // [a-z]
    | Digit          // \d
    | Letter         // [a-zA-Z]
    | Special        // [@$!%*?&]
    | PasswordChar   // [A-Za-z\d@$!%*?&]
    | LocalChar      // [a-zA-Z0-9._%+-]
    | DomainChar     // [a-zA-Z0-9.-]

  predicate IsSpecial(c: char)
  {
    c == '@' || c == '$' || c == '!' || c == '%' || c == '*' || c == '?' || c == '&'
  }

  predicate In(c: char, k: CharClass)
  {
    match k
    case Upper => IsUpper(c)
    case Lower => IsLower(c)
    case Digit => IsDigit(c)
    case Letter => IsLetter(c)
    case Special => IsSpecial(c)
    case PasswordChar => IsLetter(c) || IsDigit(c) || IsSpecial(c)
    case LocalChar => IsLetter(c) || IsDigit(c) || c == '.' || c == '_' || c == '%' || c == '+' || c == '-'
    case DomainChar => IsLetter(c) || IsDigit(c) || c == '.' || c == '-'
  }

  /** Every character of `s` is in class `k`. */
  predicate AllIn(s: string, k: CharClass)
  {
    forall i :: 0 <= i < |s| ==> In(s[i], k)
  }

  /** Some character of `s` is in class `k`. */
  predicate SomeIn(s: string, k: CharClass)
  {
    exists i :: 0 <= i < |s| && In(s[i], k)
  }

  /** A lookahead `(?=.*X)` at the start of `s`: some character of class X,
      reached without a newline (`.` does not match one). */
  predicate LookaheadFinds(s: string, k: CharClass)
  {
    exists i :: 0 <= i < |s| && In(s[i], k) && Free(s[..i], '\n')
  }

  /** `^(?=.*[A-Z])(?=.*[a-z])(?=.*\d)(?=.*[@$!%*?&])[A-Za-z\d@$!%*?&]{8,}$` */
  predicate IsValidPassword(p: string)
  {
    && LookaheadFinds(p, Upper)
    && LookaheadFinds(p, Lower)
    && LookaheadFinds(p, Digit)
    && LookaheadFinds(p, Special)
    && |p| >= 8
    && AllIn(p, PasswordChar)
  }

  /** A password is valid exactly when it has at least 8 characters, all from
      the allowed set, among them an upper-case letter, a lower-case letter, a
      digit and one of `@$!%*?&`. */
  lemma PasswordCharacterisation(p: string)
    ensures IsValidPassword(p) <==>
      && |p| >= 8
      && AllIn(p, PasswordChar)
      && SomeIn(p, Upper) && SomeIn(p, Lower) && SomeIn(p, Digit) && SomeIn(p, Special)
  {
    if AllIn(p, PasswordChar) {
      forall i | 0 <= i <= |p| ensures Free(p[..i], '\n') {
        forall j | 0 <= j < i ensures p[..i][j] != '\n' {
          assert In(p[j], PasswordChar);
        }
      }
    }
  }

  /** One character outside the allowed set (a space, `#`, ...) makes any password invalid. */
  lemma ForeignCharRejected(p: string, i: int)
    requires 0 <= i < |p| && !In(p[i], PasswordChar)
    ensures !IsValidPassword(p)
  {
  }

  /** A valid password. */
  lemma PasswordAccepted()
    ensures IsValidPassword("Passw0rd!")
  {
    var p := "Passw0rd!";
    forall i | 0 <= i < |p| ensures In(p[i], PasswordChar) {
      assert i == 0 || i == 1 || i == 2 || i == 3 || i == 4 || i == 5 || i == 6 || i == 7 || i == 8;
    }
    assert In(p[0], Upper) && In(p[1], Lower) && In(p[5], Digit) && In(p[8], Special);
    PasswordCharacterisation(p);
  }

  /** Passwords refused: one with a space, one with `#`, one too short. */
  lemma PasswordsRejected()
    ensures !IsValidPassword("Pass w0rd!")
    ensures !IsValidPassword("Passw0rd#")
    ensures !IsValidPassword("Pa5s!wd")
  {
    ForeignCharRejected("Pass w0rd!", 4);
    ForeignCharRejected("Passw0rd#", 8);
  }

  /** The runs a match of the e-mail expression consists of, for an `@` at
      position i and a `.` at position j. */
  predicate SplitAt(e: string, i: int, j: int)
  {
    && 0 < i && i + 1 < j && j + 2 < |e|
    && e[i] == '@' && e[j] == '.'
    && AllIn(e[..i], LocalChar) && AllIn(e[i + 1..j], DomainChar) && AllIn(e[j + 1..], Letter)
  }

  /** `^[a-zA-Z0-9._%+-]+@[a-zA-Z0-9.-]+\.[a-zA-Z]{2,}$`: a match splits the
      string at an `@` and a `.` into a non-empty local part, a non-empty
      domain run and at least two letters. */
  predicate IsValidEmail(e: string)
  {
    exists i, j :: 0 < i < |e| && 0 < j < |e| && SplitAt(e, i, j)
  }

  /** The domain after the `@`: only `[A-Za-z0-9.-]`, at least two letters
      after its last `.`, and something before that dot. */
  predicate DomainShape(d: string)
  {
    && AllIn(d, DomainChar)
    && var k := LastIndexOf(d, '.');
       && k >= 1
       && |d| - (k + 1) >= 2
       && AllIn(d[k + 1..], Letter)
  }

  /** `e` holds an `@` at `i` and nowhere else. */
  predicate OnlyAt(e: string, i: int)
  {
    0 <= i < |e| && e[i] == '@' && forall m :: 0 <= m < |e| && m != i ==> e[m] != '@'
  }

  /** Exactly one `@`, a non-empty local part over `[A-Za-z0-9._%+-]` before it,
      and a well-shaped domain after it. */
  predicate EmailShape(e: string)
  {
    exists i :: 0 < i < |e| && OnlyAt(e, i) && AllIn(e[..i], LocalChar) && DomainShape(e[i + 1..])
  }

  /** In a match the `@` that splits it is the only one. */
  lemma SplitAtOnlyAt(e: string, i: int, j: int)
    requires SplitAt(e, i, j)
    ensures OnlyAt(e, i)
  {
    forall m | 0 <= m < |e| && m != i ensures e[m] != '@' {
      if m < i {
        assert In(e[..i][m], LocalChar);
      } else if m < j {
        assert In(e[i + 1..j][m - i - 1], DomainChar);
      } else if m > j {
        assert In(e[j + 1..][m - j - 1], Letter);
      }
    }
  }

  /** In a match the text after the `@` is a well-shaped domain. */
  lemma SplitAtDomain(e: string, i: int, j: int)
    requires SplitAt(e, i, j)
    ensures DomainShape(e[i + 1..])
  {
    var d := e[i + 1..];
    var k := j - (i + 1);
    var tld := e[j + 1..];
    assert d[k + 1..] == tld;
    forall m | 0 <= m < |d| ensures In(d[m], DomainChar) {
      if m < k {
        assert d[m] == e[i + 1..j][m];
      } else if m > k {
        assert d[m] == tld[m - k - 1];
      }
    }
    forall m | k < m < |d| ensures d[m] != '.' {
      assert In(tld[m - k - 1], Letter);
    }
    LastIndexOfIs(d, '.', k);
  }

  lemma ValidEmailHasShape(e: string)
    requires IsValidEmail(e)
    ensures EmailShape(e)
  {
    var i, j :| 0 < i < |e| && 0 < j < |e| && SplitAt(e, i, j);
    SplitAtOnlyAt(e, i, j);
    SplitAtDomain(e, i, j);
  }

  /** A well-shaped domain is a domain run, its last dot and its letters. */
  lemma DomainRuns(d: string)
    requires DomainShape(d)
    ensures var k := LastIndexOf(d, '.');
      1 <= k && k + 2 < |d| && d[k] == '.' && AllIn(d[..k], DomainChar) && AllIn(d[k + 1..], Letter)
  {
    var k := LastIndexOf(d, '.');
    var dom := d[..k];
    forall m | 0 <= m < |dom| ensures In(dom[m], DomainChar) {
      assert dom[m] == d[m];
    }
  }

  /** An `@` followed by a well-shaped domain is where a match splits. */
  lemma ShapeSplits(e: string, i: int)
    requires 0 < i < |e| && e[i] == '@' && AllIn(e[..i], LocalChar) && DomainShape(e[i + 1..])
    ensures SplitAt(e, i, i + 1 + LastIndexOf(e[i + 1..], '.'))
  {
    var d := e[i + 1..];
    var k := LastIndexOf(d, '.');
    DomainRuns(d);
    var j := i + 1 + k;
    assert e[i + 1..j] == d[..k];
    assert e[j + 1..] == d[k + 1..];
  }

  lemma ShapedEmailIsValid(e: string)
    requires EmailShape(e)
    ensures IsValidEmail(e)
  {
    var i :| 0 < i < |e| && OnlyAt(e, i) && AllIn(e[..i], LocalChar) && DomainShape(e[i + 1..]);
    ShapeSplits(e, i);
  }

  /** An e-mail address matches the expression exactly when it has that shape. */
  lemma EmailCharacterisation(e: string)
    ensures IsValidEmail(e) <==> EmailShape(e)
  {
    if IsValidEmail(e) {
      ValidEmailHasShape(e);
    }
    if EmailShape(e) {
      ShapedEmailIsValid(e);
    }
  }

  /** Two `@` make any address invalid. */
  lemma TwoAtsRejected(e: string, a: int, b: int)
    requires 0 <= a < b < |e| && e[a] == '@' && e[b] == '@'
    ensures !IsValidEmail(e)
  {
    if IsValidEmail(e) {
      ValidEmailHasShape(e);
    }
  }

  /** A character outside `[A-Za-z0-9._%+-]` before the `@` makes an address invalid. */
  lemma ForeignLocalCharRejected(e: string, a: int, m: int)
    requires 0 <= m < a < |e| && e[a] == '@' && !In(e[m], LocalChar)
    ensures !IsValidEmail(e)
  {
    if IsValidEmail(e) {
      var i, j :| 0 < i < |e| && 0 < j < |e| && SplitAt(e, i, j);
      SplitAtOnlyAt(e, i, j);
    }
  }

  /** No `.` after the `@` makes an address invalid. */
  lemma NoDotAfterAtRejected(e: string, a: int)
    requires 0 <= a < |e| && e[a] == '@'
    requires forall m :: a < m < |e| ==> e[m] != '.'
    ensures !IsValidEmail(e)
  {
    if IsValidEmail(e) {
      var i, j :| 0 < i < |e| && 0 < j < |e| && SplitAt(e, i, j);
      SplitAtOnlyAt(e, i, j);
    }
  }

  /** A valid address. */
  lemma EmailAccepted()
    ensures IsValidEmail("jo@ex.io")
  {
    var e := "jo@ex.io";
    assert e[..2] == "jo" && e[3..5] == "ex" && e[6..] == "io";
    assert In('j', LocalChar) && In('o', LocalChar);
    assert In('e', DomainChar) && In('x', DomainChar);
    assert In('i', Letter) && In('o', Letter);
    assert SplitAt(e, 2, 5);
  }

  /** Addresses refused: a second `@`, a space in the local part, no dot in the domain. */
  lemma EmailsRejected()
    ensures !IsValidEmail("a@b@ex.io")
    ensures !IsValidEmail("jo ex@ex.io")
    ensures !IsValidEmail("jo@exio")
  {
    TwoAtsRejected("a@b@ex.io", 1, 3);
    ForeignLocalCharRejected("jo ex@ex.io", 5, 2);
    var e := "jo@exio";
    forall m | 2 < m < |e| ensures e[m] != '.' {
      assert m == 3 || m == 4 || m == 5 || m == 6;
    }
    NoDotAfterAtRejected(e, 2);
  }
}
