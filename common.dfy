/**
 * Shared vocabulary of the model: the exceptions the Python code raises,
 * Option/Result wrappers, and the few pieces of Python and Django string
 * handling the core relies on (str.split, str.rsplit, str.strip,
 * str.capitalize, Django's `title` filter, str(int)) together with ordered
 * dictionaries, which Python keeps in insertion order.
 */
module Common {

  /** The exceptions raised by the modelled code. */
  datatype Error =
    | TypeError
    | ValueError
    | KeyError
    | IndexError
    | AttributeError
    | NotImplementedError
    | DoesNotExist
    | ValidationError(code: string)
    | Raised(detail: string)  // an exception from code outside the model, and its message

  datatype Option<+T> = None | Some(value: T)

  datatype Result<+T> = Ok(value: T) | Err(error: Error)

  /** A call that returns nothing or raises. */
  datatype Outcome = Pass | Fail(error: Error)

  /** The elements of a sequence. */
  function Elems<T>(s: seq<T>): set<T>
  {
    set x | x in s
  }

  /** A Python list without repeated elements. */
  predicate NoDup<T(==)>(s: seq<T>)
  {
    forall i, j :: 0 <= i < j < |s| ==> s[i] != s[j]
  }

  /** Python truthiness of an optional string: None and "" are false. */
  predicate Truthy(s: Option<string>)
  {
    s.Some? && s.value != ""
  }

  // ---------------------------------------------------------------------
  // Searching a string for a character
  // ---------------------------------------------------------------------

  /** `s.index(c)`: the first position of `c` in `s`. */
  function FirstIndex(s: string, c: char): (i: nat)
    requires c in s
    ensures i < |s| && s[i] == c && c !in s[..i]
  {
    if s[0] == c then 0 else 1 + FirstIndex(s[1..], c)
  }

  /** `s.rindex(c)`: the last position of `c` in `s`. */
  function LastIndex(s: string, c: char): (i: nat)
    requires c in s
    ensures i < |s| && s[i] == c && c !in s[i + 1..]
  {
    if s[|s| - 1] == c then |s| - 1 else LastIndex(s[..|s| - 1], c)
  }

  // ---------------------------------------------------------------------
  // str.split(sep) with an explicit one-character separator
  // ---------------------------------------------------------------------

  /**
   * `s.split(sep)`: the pieces between the separators, so that there is
   * exactly one more piece than there are separators; "" gives [""].
   */
  function Split(s: string, sep: char): (parts: seq<string>)
    ensures |parts| >= 1
    ensures forall i :: 0 <= i < |parts| ==> sep !in parts[i]
    decreases |s|
  {
    if sep !in s then [s]
    else
      var i := FirstIndex(s, sep);
      [s[..i]] + Split(s[i + 1..], sep)
  }

  /** `sep.join(parts)`. */
  function Join(parts: seq<string>, sep: char): string
  {
    if |parts| == 0 then ""
    else if |parts| == 1 then parts[0]
    else parts[0] + [sep] + Join(parts[1..], sep)
  }

  /** Splitting after a separator-free head gives the head, then the rest's pieces. */
  lemma SplitCons(a: string, sep: char, b: string)
    requires sep !in a
    ensures Split(a + [sep] + b, sep) == [a] + Split(b, sep)
  {
    var s := a + [sep] + b;
    assert s[|a|] == sep;
    assert sep in s;
    var i := FirstIndex(s, sep);
    assert s[..|a|] == a;
    assert i == |a|;
    assert s[..i] == a;
    assert s[i + 1..] == b;
  }

  /** Joining separator-free pieces and splitting again gives the pieces back. */
  lemma {:induction false} SplitJoin(parts: seq<string>, sep: char)
    requires |parts| >= 1
    requires forall i :: 0 <= i < |parts| ==> sep !in parts[i]
    ensures Split(Join(parts, sep), sep) == parts
    decreases |parts|
  {
    if |parts| == 1 {
      assert Join(parts, sep) == parts[0];
    } else {
      var rest := parts[1..];
      assert forall i :: 0 <= i < |rest| ==> sep !in rest[i] by {
        forall i | 0 <= i < |rest| ensures sep !in rest[i] {
          assert rest[i] == parts[i + 1];
        }
      }
      SplitJoin(rest, sep);
      SplitCons(parts[0], sep, Join(rest, sep));
      assert [parts[0]] + rest == parts;
    }
  }

  /** `a + "/" + b` splits into exactly `[a, b]` when neither contains '/'. */
  lemma SplitPair(a: string, sep: char, b: string)
    requires sep !in a && sep !in b
    ensures Split(a + [sep] + b, sep) == [a, b]
  {
    SplitCons(a, sep, b);
  }

  /** Three separator-free pieces split back into three. */
  lemma SplitTriple(a: string, sep: char, b: string, c: string)
    requires sep !in a && sep !in b && sep !in c
    ensures Split(a + [sep] + b + [sep] + c, sep) == [a, b, c]
  {
    assert a + [sep] + b + [sep] + c == a + [sep] + (b + [sep] + c);
    SplitCons(a, sep, b + [sep] + c);
    SplitCons(b, sep, c);
  }

  // ---------------------------------------------------------------------
  // str.rsplit('.', maxsplit=1)
  // ---------------------------------------------------------------------

  /** `s.rsplit(sep, maxsplit=1)[0]`: everything before the last separator. */
  function DropLast(s: string, sep: char): (r: string)
    ensures sep !in s ==> r == s
    ensures sep in s ==> r + [sep] + s[LastIndex(s, sep) + 1..] == s
  {
    if sep !in s then s
    else
      var i := LastIndex(s, sep);
      assert s == s[..i] + [sep] + s[i + 1..];
      s[..i]
  }

  /** `s.rsplit(sep, maxsplit=1)[-1]`: everything after the last separator. */
  function LastPart(s: string, sep: char): (r: string)
    ensures sep !in r
  {
    if sep !in s then s else s[LastIndex(s, sep) + 1..]
  }

  /** rsplit on a compound name returns the two names it was built from. */
  lemma RSplitConcat(a: string, sep: char, b: string)
    requires sep !in b
    ensures DropLast(a + [sep] + b, sep) == a
    ensures LastPart(a + [sep] + b, sep) == b
  {
    var s := a + [sep] + b;
    assert s[|a|] == sep;
    var i := LastIndex(s, sep);
    assert s[|a| + 1..] == b;
    assert i == |a|;
    assert s[..i] == a;
    assert s[i + 1..] == b;
  }

  // ---------------------------------------------------------------------
  // str.strip(chars)
  // ---------------------------------------------------------------------

  function StripLeading(s: string, cs: set<char>): (r: string)
    ensures |r| > 0 ==> r[0] !in cs
    decreases |s|
  {
    if |s| > 0 && s[0] in cs then StripLeading(s[1..], cs) else s
  }

  function StripTrailing(s: string, cs: set<char>): (r: string)
    ensures |r| > 0 ==> r[|r| - 1] !in cs
    decreases |s|
  {
    if |s| > 0 && s[|s| - 1] in cs then StripTrailing(s[..|s| - 1], cs) else s
  }

  /** `s.strip(chars)`: drops every leading and trailing character in `cs`. */
  function Strip(s: string, cs: set<char>): string
  {
    StripTrailing(StripLeading(s, cs), cs)
  }

  /** Stripping removes exactly a prefix made of stripped characters. */
  lemma {:induction false} StripLeadingPrefix(p: string, s: string, cs: set<char>)
    requires forall i :: 0 <= i < |p| ==> p[i] in cs
    requires |s| > 0 && s[0] !in cs
    ensures StripLeading(p + s, cs) == s
    decreases |p|
  {
    if |p| > 0 {
      assert (p + s)[1..] == p[1..] + s;
      StripLeadingPrefix(p[1..], s, cs);
    } else {
      assert p + s == s;
    }
  }

  // ---------------------------------------------------------------------
  // Letter case (ASCII letters are the cased characters of the model)
  // ---------------------------------------------------------------------

  predicate IsLower(c: char) { 'a' <= c <= 'z' }
  predicate IsUpper(c: char) { 'A' <= c <= 'Z' }
  predicate IsLetter(c: char) { IsLower(c) || IsUpper(c) }
  predicate IsDigit(c: char) { '0' <= c <= '9' }

  function ToUpper(c: char): (r: char)
    ensures !IsLower(r)
    ensures IsLetter(c) <==> IsLetter(r)
  {
    if IsLower(c) then (c as int - 32) as char else c
  }

  function ToLower(c: char): (r: char)
    ensures !IsUpper(r)
    ensures IsLetter(c) <==> IsLetter(r)
  {
    if IsUpper(c) then (c as int + 32) as char else c
  }

  function LowerAll(s: string): (r: string)
    ensures |r| == |s|
    ensures forall i :: 0 <= i < |s| ==> r[i] == ToLower(s[i])
  {
    if |s| == 0 then "" else [ToLower(s[0])] + LowerAll(s[1..])
  }

  /** `s.capitalize()`: first character upper case, all others lower case. */
  function Capitalize(s: string): (r: string)
    ensures |r| == |s|
    ensures |s| > 0 ==> r[0] == ToUpper(s[0])
    ensures forall i :: 0 < i < |s| ==> r[i] == ToLower(s[i])
  {
    if |s| == 0 then "" else [ToUpper(s[0])] + LowerAll(s[1..])
  }

  /**
   * One character of Django's `title` filter: Python's `str.title()` puts a
   * letter in upper case when it starts a word (no letter before it) and in
   * lower case otherwise; Django then lowers a letter that follows a digit,
   * and one that follows an apostrophe preceded by a lower-case letter.
   */
  function TitleChar(s: string, i: nat): char
    requires i < |s|
  {
    var c := s[i];
    if !IsLetter(c) then c
    else if i > 0 && IsLetter(s[i - 1]) then ToLower(c)
    else if i > 0 && IsDigit(s[i - 1]) then ToLower(c)
    else if i > 2 && s[i - 1] == '\'' && IsLetter(s[i - 2]) && IsLetter(s[i - 3]) then ToLower(c)
    else ToUpper(c)
  }

  /** Django's `title` filter, character by character. */
  function Title(s: string): (r: string)
    ensures |r| == |s|
    ensures forall i :: 0 <= i < |s| ==> r[i] == TitleChar(s, i)
  {
    seq(|s|, i requires 0 <= i < |s| => TitleChar(s, i))
  }

  /** `s.replace(c, "")`. */
  function Remove(s: string, c: char): (r: string)
    ensures c !in r
    ensures forall x :: x != c ==> (x in r <==> x in s)
  {
    if |s| == 0 then ""
    else (if s[0] == c then "" else [s[0]]) + Remove(s[1..], c)
  }

  // ---------------------------------------------------------------------
  // str(n) for a natural number
  // ---------------------------------------------------------------------

  function DigitChar(d: nat): (c: char)
    requires d < 10
    ensures IsDigit(c)
  {
    "0123456789"[d]
  }

  /** `str(n)`: the decimal digits of n, most significant first. */
  function NatToString(n: nat): (s: string)
    ensures |s| >= 1
    ensures forall i :: 0 <= i < |s| ==> IsDigit(s[i])
    ensures n >= 10 ==> |s| >= 2
  {
    if n < 10 then [DigitChar(n)] else NatToString(n / 10) + [DigitChar(n % 10)]
  }

  /** Different digits are different characters. */
  lemma DigitCharInjective(d: nat, e: nat)
    requires d < 10 && e < 10 && DigitChar(d) == DigitChar(e)
    ensures d == e
  {
    assert "0123456789"[d] == "0123456789"[e];
  }

  /** Different numbers are written differently. */
  lemma {:induction false} NatToStringInjective(a: nat, b: nat)
    requires NatToString(a) == NatToString(b)
    ensures a == b
    decreases a
  {
    var sa, sb := NatToString(a), NatToString(b);
    if a < 10 && b < 10 {
      DigitCharInjective(a, b);
    } else if a >= 10 && b >= 10 {
      var qa, ra, qb, rb := a / 10, a % 10, b / 10, b % 10;
      assert sa == NatToString(qa) + [DigitChar(ra)];
      assert sb == NatToString(qb) + [DigitChar(rb)];
      assert NatToString(qa) == sa[..|sa| - 1] == sb[..|sb| - 1] == NatToString(qb);
      NatToStringInjective(qa, qb);
      DigitCharInjective(ra, rb);
    }
  }

  /** No character other than a digit occurs in `str(n)`. */
  lemma NatToStringHasNo(n: nat, c: char)
    requires !IsDigit(c)
    ensures c !in NatToString(n)
  {
    var s := NatToString(n);
    forall i | 0 <= i < |s| ensures s[i] != c {
      assert IsDigit(s[i]);
    }
  }

  // ---------------------------------------------------------------------
  // Selectable fields
  // ---------------------------------------------------------------------

  /** A selectable field tuple: `(attribute, label, column width, ...)`. */
  datatype FieldDef = FieldDef(attr: string, caption: string, width: int)

  /** `selectable_fields()`: group label to its field tuples, in declaration order. */
  type FieldGroups = seq<(string, seq<FieldDef>)>

  /**
   * What calling an exporter's `selectable_fields()` gives: its groups, an
   * AttributeError, or the NotImplementedError of the Excel mixin's own
   * definition, which a subclass that does not override it inherits.
   */
  datatype Selectable = Declared(groups: FieldGroups) | Missing | NotOverridden

  // ---------------------------------------------------------------------
  // Ordered dictionaries
  // ---------------------------------------------------------------------

  /** The keys of an ordered dictionary, in insertion order. */
  function Keys<K, V>(d: seq<(K, V)>): (ks: seq<K>)
    ensures |ks| == |d|
    ensures forall i :: 0 <= i < |d| ==> ks[i] == d[i].0
  {
    seq(|d|, i requires 0 <= i < |d| => d[i].0)
  }

  /** A Python dict: every key appears once. */
  predicate UniqueKeys<K(==), V>(d: seq<(K, V)>)
  {
    forall i, j :: 0 <= i < j < |d| ==> d[i].0 != d[j].0
  }

  /** `d.get(k)`. */
  function Get<K(==), V>(d: seq<(K, V)>, k: K): (r: Option<V>)
    ensures r.None? <==> k !in Keys(d)
    ensures r.Some? ==> exists i :: 0 <= i < |d| && d[i] == (k, r.value)
  {
    if |d| == 0 then None
    else if d[0].0 == k then Some(d[0].1)
    else
      var r := Get(d[1..], k);
      assert forall i :: 0 <= i < |d| - 1 ==> d[1..][i] == d[i + 1];
      r
  }

  /** Looking up the key stored at position i of a dict gives the value there. */
  lemma {:induction false} GetAt<K, V>(d: seq<(K, V)>, i: nat)
    requires UniqueKeys(d) && i < |d|
    ensures Get(d, d[i].0) == Some(d[i].1)
  {
    if i > 0 {
      assert UniqueKeys(d[1..]) by {
        forall a, b | 0 <= a < b < |d| - 1 ensures d[1..][a].0 != d[1..][b].0 {
          assert d[1..][a] == d[a + 1] && d[1..][b] == d[b + 1];
        }
      }
      GetAt(d[1..], i - 1);
      assert d[1..][i - 1] == d[i];
    }
  }

  /** The concatenation of the values of a dict of lists (`for v in d.values(): r += v`). */
  function FlattenValues<K, V>(d: seq<(K, seq<V>)>): seq<V>
  {
    if |d| == 0 then [] else FlattenValues(d[..|d| - 1]) + d[|d| - 1].1
  }

  /**
   * `d.update(e)` on ordered dicts: a key of `e` already in `d` keeps its
   * position and takes e's value; new keys are appended in e's order.
   */
  function Update<K(==), V>(d: seq<(K, V)>, e: seq<(K, V)>): (r: seq<(K, V)>)
    decreases |e|
  {
    if |e| == 0 then d
    else Update(Put(d, e[0].0, e[0].1), e[1..])
  }

  /** `d[k] = v` on an ordered dict. */
  function Put<K(==), V>(d: seq<(K, V)>, k: K, v: V): (r: seq<(K, V)>)
    ensures k !in Keys(d) ==> r == d + [(k, v)]
  {
    if |d| == 0 then [(k, v)]
    else if d[0].0 == k then [(k, v)] + d[1..]
    else [d[0]] + Put(d[1..], k, v)
  }

  /** After `d[k] = v`, k maps to v and every other key keeps its value. */
  lemma {:induction false} PutGet<K, V>(d: seq<(K, V)>, k: K, v: V, k2: K)
    ensures Get(Put(d, k, v), k2) == if k2 == k then Some(v) else Get(d, k2)
    decreases |d|
  {
    if |d| > 0 && d[0].0 != k {
      PutGet(d[1..], k, v, k2);
      assert Put(d, k, v)[1..] == Put(d[1..], k, v);
    } else if |d| > 0 {
      assert Put(d, k, v)[1..] == d[1..];
    }
  }

  /** `d[k] = v` keeps a dict's keys unique. */
  lemma {:induction false} PutUnique<K, V>(d: seq<(K, V)>, k: K, v: V)
    requires UniqueKeys(d)
    ensures UniqueKeys(Put(d, k, v))
    decreases |d|
  {
    if |d| > 0 {
      var rest := d[1..];
      assert UniqueKeys(rest) by {
        forall a, b | 0 <= a < b < |rest| ensures rest[a].0 != rest[b].0 {
          assert rest[a] == d[a + 1] && rest[b] == d[b + 1];
        }
      }
      if d[0].0 != k {
        PutUnique(rest, k, v);
        var r := Put(d, k, v);
        assert r[1..] == Put(rest, k, v);
        forall j | 0 < j < |r| ensures r[j].0 != d[0].0 {
          PutGet(rest, k, v, d[0].0);
          assert d[0].0 !in Keys(rest) by {
            forall m | 0 <= m < |rest| ensures rest[m].0 != d[0].0 {
              assert rest[m] == d[m + 1];
            }
          }
          assert r[j] == Put(rest, k, v)[j - 1];
          assert Put(rest, k, v)[j - 1].0 in Keys(Put(rest, k, v));
        }
      } else {
        var r := Put(d, k, v);
        forall a, b | 0 <= a < b < |r| ensures r[a].0 != r[b].0 {
          assert r[b] == d[b];
          if a > 0 {
            assert r[a] == d[a];
          }
        }
      }
    }
  }
}
