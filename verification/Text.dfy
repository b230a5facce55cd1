/** String helpers shared by the printers and readers: joining and splitting lines, decimal numerals, and Python's
    str.replace. */
module Text {

  /** sep.join(parts) */
  function Join(parts: seq<string>, sep: string): string {
    if |parts| == 0 then ""
    else if |parts| == 1 then parts[0]
    else parts[0] + sep + Join(parts[1..], sep)
  }

  /** s.rstrip(c) for a one-character argument */
  function RStrip(s: string, c: char): string {
    if s != "" && s[|s| - 1] == c then RStrip(s[..|s| - 1], c) else s
  }

  /** s.split(c) for a one-character separator: always at least one part. */
  function Split(s: string, c: char): (parts: seq<string>)
    ensures |parts| >= 1
  {
    if s == "" then [""]
    else
      var rest := Split(s[1..], c);
      if s[0] == c then [""] + rest else [[s[0]] + rest[0]] + rest[1..]
  }

  lemma {:induction false} SplitNone(s: string, c: char)
    requires c !in s
    ensures Split(s, c) == [s]
  {
    if s != "" {
      SplitNone(s[1..], c);
      assert [s[0]] + s[1..] == s;
    }
  }

  lemma {:induction false} SplitCut(a: string, c: char, b: string)
    requires c !in a
    ensures Split(a + [c] + b, c) == [a] + Split(b, c)
  {
    var s := a + [c] + b;
    if a == "" {
      assert s[1..] == b;
    } else {
      SplitCut(a[1..], c, b);
      assert s[1..] == a[1..] + [c] + b;
      assert [a[0]] + a[1..] == a;
    }
  }

  lemma {:induction false} SplitFree(s: string, c: char)
    ensures forall p :: p in Split(s, c) ==> c !in p
  {
    if s != "" {
      SplitFree(s[1..], c);
      var rest := Split(s[1..], c);
      assert rest[0] in rest;
    }
  }

  lemma {:induction false} JoinSplit(s: string, c: char)
    ensures Join(Split(s, c), [c]) == s
  {
    if s != "" {
      JoinSplit(s[1..], c);
      var rest := Split(s[1..], c);
      if s[0] == c {
        assert ([""] + rest)[1..] == rest;
        assert "" + [c] + s[1..] == s;
      } else {
        var parts := [[s[0]] + rest[0]] + rest[1..];
        if |rest| == 1 {
          assert [s[0]] + rest[0] == s;
        } else {
          assert parts[1..] == rest[1..];
          assert ([s[0]] + rest[0]) + [c] + Join(rest[1..], [c]) == [s[0]] + (rest[0] + [c] + Join(rest[1..], [c]));
          assert [s[0]] + s[1..] == s;
        }
      }
    }
  }

  /** Splitting distributes over concatenation with a separator between. */
  lemma {:induction false} SplitConcat(a: string, c: char, b: string)
    ensures Split(a + [c] + b, c) == Split(a, c) + Split(b, c)
    decreases |a|
  {
    if a == "" {
      assert ([c] + b)[1..] == b;
      assert a + [c] + b == [c] + b;
    } else {
      SplitConcat(a[1..], c, b);
      assert a + [c] + b == [a[0]] + (a[1..] + [c] + b);
      SplitCons(a[0], a[1..] + [c] + b, c);
      SplitCons(a[0], a[1..], c);
      assert a == [a[0]] + a[1..];
      ConsParts(a[0], c, Split(a[1..], c), Split(b, c));
    }
  }

  function SplitStep(x: char, c: char, rest: seq<string>): seq<string>
    requires |rest| >= 1
  {
    if x == c then [""] + rest else [[x] + rest[0]] + rest[1..]
  }

  lemma {:induction false} SplitCons(x: char, s: string, c: char)
    ensures Split([x] + s, c) == SplitStep(x, c, Split(s, c))
  {
    assert ([x] + s)[1..] == s;
  }

  lemma {:induction false} ConsParts(x: char, c: char, p: seq<string>, q: seq<string>)
    requires |p| >= 1
    ensures SplitStep(x, c, p + q) == SplitStep(x, c, p) + q
  {
  }

  /** Text made of whole lines: every element followed by a newline. */
  function Terminated(lines: seq<string>): string {
    if |lines| == 0 then "" else lines[0] + "\n" + Terminated(lines[1..])
  }

  lemma {:induction false} TerminatedConcat(a: seq<string>, b: seq<string>)
    ensures Terminated(a + b) == Terminated(a) + Terminated(b)
  {
    if a == [] {
      assert a + b == b;
    } else {
      var x, y := Terminated(a[1..]), Terminated(b);
      assert Terminated(a + b) == a[0] + "\n" + (x + y) by {
        TerminatedConcat(a[1..], b);
        assert (a + b)[1..] == a[1..] + b;
      }
      assert a[0] + "\n" + (x + y) == (a[0] + "\n" + x) + y;
    }
  }

  lemma {:induction false} JoinTerminated(lines: seq<string>)
    requires |lines| > 0
    ensures Join(lines, "\n") + "\n" == Terminated(lines)
  {
    if |lines| > 1 {
      JoinTerminated(lines[1..]);
      assert lines[0] + "\n" + Join(lines[1..], "\n") + "\n" == lines[0] + "\n" + (Join(lines[1..], "\n") + "\n");
    } else {
      assert lines[1..] == [];
    }
  }

  lemma {:induction false} AppendEmpty(inner: string, marker: string)
    ensures inner + (marker + "\n" + "") == inner + marker + "\n"
  {
  }

  lemma {:induction false} TerminatedCons(first: string, rest: seq<string>)
    ensures Terminated([first] + rest) == first + "\n" + Terminated(rest)
  {
    assert ([first] + rest)[1..] == rest;
  }

  /** A block of lines between a first and a last line. */
  lemma {:induction false} JoinBetween(first: string, inner: seq<string>, last: string)
    requires |inner| > 0
    ensures Join([first] + inner + [last], "\n") + "\n" == (first + "\n") + (Join(inner, "\n") + "\n" + last + "\n")
  {
    var body := Terminated(inner);
    JoinTerminated([first] + inner + [last]);
    JoinTerminated(inner);
    assert [first] + inner + [last] == [first] + (inner + [last]);
    TerminatedCons(first, inner + [last]);
    TerminatedConcat(inner, [last]);
    TerminatedCons(last, []);
    assert [last] + [] == [last];
    AppendEmpty(body, last);
  }

  /** No line of `text` (as split at newlines) is exactly `line`. */
  predicate LineFree(text: string, line: string) {
    line !in Split(text, '\n')
  }

  /** A joined block avoids a line exactly when every piece of it does. */
  lemma {:induction false} LineFreeJoin(parts: seq<string>, line: string)
    requires |parts| > 0
    ensures LineFree(Join(parts, "\n"), line) <==> forall i :: 0 <= i < |parts| ==> LineFree(parts[i], line)
  {
    if |parts| > 1 {
      var rest := Join(parts[1..], "\n");
      LineFreeJoin(parts[1..], line);
      SplitConcat(parts[0], '\n', rest);
      assert parts[0] + ['\n'] + rest == Join(parts, "\n");
      assert LineFree(Join(parts, "\n"), line) <==> LineFree(parts[0], line) && LineFree(rest, line);
      assert forall i :: 0 <= i < |parts| - 1 ==> parts[1..][i] == parts[i + 1];
      assert forall i :: 1 <= i < |parts| ==> parts[i] == parts[1..][i - 1];
    }
  }

  function Digit(d: nat): char
    requires d < 10
  {
    ('0' as int + d) as char
  }

  predicate Numeral(s: string) {
    forall i :: 0 <= i < |s| ==> '0' <= s[i] <= '9'
  }

  /** str(n) for a natural number */
  function Decimal(n: nat): (s: string)
    ensures |s| >= 1
    ensures Numeral(s)
  {
    if n < 10 then [Digit(n)] else Decimal(n / 10) + [Digit(n % 10)]
  }

  function Value(s: string): nat
    requires Numeral(s)
  {
    if s == "" then 0 else 10 * Value(s[..|s| - 1]) + (s[|s| - 1] as int - '0' as int)
  }

  lemma {:induction false} DecimalValue(n: nat)
    ensures Value(Decimal(n)) == n
  {
    if n >= 10 {
      DecimalValue(n / 10);
      var s := Decimal(n);
      assert s[..|s| - 1] == Decimal(n / 10);
    } else {
      var s := Decimal(n);
      assert s[..0] == "";
      assert Value(s[..|s| - 1]) == 0;
    }
  }

  /** A zero in front does not change the value of a numeral. */
  lemma {:induction false} LeadingZero(s: string)
    requires Numeral(s)
    ensures Value("0" + s) == Value(s)
  {
    var t := "0" + s;
    if s == "" {
      assert t[..0] == "";
      assert Value(t[..|t| - 1]) == 0;
    } else {
      LeadingZero(s[..|s| - 1]);
      assert t[..|t| - 1] == "0" + s[..|s| - 1];
    }
  }

  /** f"{n:04d}" */
  function Padded(n: nat): (s: string)
    ensures Numeral(s)
  {
    var d := Decimal(n);
    if |d| == 1 then "0" + ("0" + ("0" + d)) else if |d| == 2 then "0" + ("0" + d) else if |d| == 3 then "0" + d else d
  }

  lemma {:induction false} PaddedValue(n: nat)
    ensures Value(Padded(n)) == n
  {
    var d := Decimal(n);
    DecimalValue(n);
    LeadingZero(d);
    LeadingZero("0" + d);
    LeadingZero("0" + ("0" + d));
  }

  /** value.replace(old, new): leftmost, non-overlapping, left to right. */
  function Replace(value: string, old_: string, new_: string): string
    requires old_ != ""
  {
    if value == "" then ""
    else if old_ <= value then new_ + Replace(value[|old_|..], old_, new_)
    else [value[0]] + Replace(value[1..], old_, new_)
  }

  /** A stretch in which the pattern starts nowhere is copied as it is. */
  lemma {:induction false} ReplaceSkips(head: string, tail: string, old_: string, new_: string)
    requires old_ != ""
    requires forall i :: 0 <= i < |head| ==> !(old_ <= head[i..] + tail)
    ensures Replace(head + tail, old_, new_) == head + Replace(tail, old_, new_)
  {
    if head == "" {
      assert head + tail == tail;
    } else {
      assert head[0..] == head;
      forall i | 0 <= i < |head[1..]| ensures !(old_ <= head[1..][i..] + tail) {
        assert head[1..][i..] == head[i + 1..];
      }
      ReplaceSkips(head[1..], tail, old_, new_);
      ReplaceFirst(head, tail, old_, new_, Replace(tail, old_, new_));
    }
  }

  lemma {:induction false} ReplaceFirst(head: string, tail: string, old_: string, new_: string, rest: string)
    requires old_ != "" && head != "" && !(old_ <= head + tail)
    requires Replace(head[1..] + tail, old_, new_) == head[1..] + rest
    ensures Replace(head + tail, old_, new_) == head + rest
  {
    assert (head + tail)[1..] == head[1..] + tail;
    assert [head[0]] + (head[1..] + rest) == head + rest;
  }

  // Small facts about concatenation.

  lemma {:induction false} Regroup<T>(a: seq<T>, b: seq<T>, c: seq<T>)
    ensures (a + b) + c == a + (b + c) && (a + (b + c)) + [] == a + (b + c)
  {
  }

  lemma {:induction false} SameHead(a: string, b: string, c: string)
    requires a + b == a + c
    ensures b == c
  {
    assert b == (a + b)[|a|..];
    assert c == (a + c)[|a|..];
  }

  lemma {:induction false} CancelPrefix(a: string, b: string, c: string)
    ensures a + b <= a + c <==> b <= c
  {
    if a + b <= a + c {
      assert forall i :: 0 <= i < |b| ==> b[i] == (a + b)[|a| + i] == (a + c)[|a| + i] == c[i];
    }
  }
}
