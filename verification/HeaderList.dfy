/**
 * Adding a value to a comma-separated list header (section 5.6.1 of RFC 9110), whatever mixture
 * of header lines, spacing and letter case is there already. Lower-casing is a parameter.
 */
module HeaderList {
  datatype Existing = Absent | One(line: string) | Many(lines: seq<string>)

  type Lower = string -> string

  /** What JavaScript's `trim` takes off either end. */
  predicate IsSpace(c: char) {
    var n := c as int;
    || 0x9 <= n <= 0xD || n == 0x20 || n == 0xA0 || n == 0x1680 || 0x2000 <= n <= 0x200A
    || n == 0x2028 || n == 0x2029 || n == 0x202F || n == 0x205F || n == 0x3000 || n == 0xFEFF
  }

  // ---------------------------------------------------------------- parsing and printing

  function Split(s: string): (pieces: seq<string>)
    ensures pieces != [] && forall p <- pieces :: ',' !in p
  {
    if s == "" then [""]
    else
      var rest := Split(s[1..]);
      if s[0] == ',' then [""] + rest else [[s[0]] + rest[0]] + rest[1..]
  }

  function TrimLeft(s: string): (t: string)
    ensures (t == "" || !IsSpace(t[0])) && forall c <- t :: c in s
  {
    if s != "" && IsSpace(s[0]) then TrimLeft(s[1..]) else s
  }

  function TrimRight(s: string): (t: string)
    ensures (t == "" || !IsSpace(t[|t| - 1])) && t <= s
  {
    if s != "" && IsSpace(s[|s| - 1]) then TrimRight(s[..|s| - 1]) else s
  }

  function Trim(s: string): string { TrimRight(TrimLeft(s)) }

  /** The pieces that are not blank, trimmed. */
  function Kept(pieces: seq<string>): seq<string> {
    if pieces == [] then []
    else
      var rest := Kept(pieces[1..]);
      if Trim(pieces[0]) == "" then rest else [Trim(pieces[0])] + rest
  }

  function SplitAll(lines: seq<string>): seq<string> {
    if lines == [] then [] else Split(lines[0]) + SplitAll(lines[1..])
  }

  function Lines(existing: Existing): seq<string> {
    match existing
    case Absent => []
    case One(line) => [line]
    case Many(lines) => lines
  }

  function Elements(existing: Existing): seq<string> { Kept(SplitAll(Lines(existing))) }

  function Join(elements: seq<string>): string {
    if elements == [] then ""
    else if |elements| == 1 then elements[0]
    else elements[0] + ", " + Join(elements[1..])
  }

  ghost predicate Has(lower: Lower, elements: seq<string>, value: string) {
    exists i :: 0 <= i < |elements| && lower(elements[i]) == lower(value)
  }

  ghost function Append(lower: Lower, existing: Existing, value: string): string {
    var elements := Elements(existing);
    if Has(lower, elements, value) then Join(elements) else Join(elements + [value])
  }

  // ---------------------------------------------------------------- laws

  /** What a list element may be: not empty, no comma, no space at either end. */
  predicate Clean(s: string) {
    s != "" && ',' !in s && !IsSpace(s[0]) && !IsSpace(s[|s| - 1])
  }

  ghost predicate AllClean(elements: seq<string>) { forall e <- elements :: Clean(e) }

  lemma TrimmedIsClean(s: string)
    requires ',' !in s
    ensures Trim(s) == "" || Clean(Trim(s))
    ensures Clean(s) ==> Trim(s) == s
  {
    var left := TrimLeft(s);
    var t := TrimRight(left);
    if t != "" {
      assert t[0] == left[0];
      assert forall c <- t :: c in left;
    }
  }

  lemma {:induction false} KeptAreClean(pieces: seq<string>)
    requires forall p <- pieces :: ',' !in p
    ensures AllClean(Kept(pieces))
  {
    if pieces != [] {
      TrimmedIsClean(pieces[0]);
      KeptAreClean(pieces[1..]);
    }
  }

  lemma {:induction false} SplitAllHasNoComma(lines: seq<string>)
    ensures forall p <- SplitAll(lines) :: ',' !in p
  {
    if lines != [] {
      SplitAllHasNoComma(lines[1..]);
    }
  }

  /** Every element of any header is clean. */
  lemma ElementsAreClean(existing: Existing)
    ensures AllClean(Elements(existing))
  {
    SplitAllHasNoComma(Lines(existing));
    KeptAreClean(SplitAll(Lines(existing)));
  }

  lemma {:induction false} SplitAtComma(a: string, b: string)
    requires ',' !in a
    ensures Split(a + "," + b) == [a] + Split(b)
  {
    if a == "" {
      assert (a + "," + b)[1..] == b;
    } else {
      SplitAtComma(a[1..], b);
      assert (a + "," + b)[1..] == a[1..] + "," + b;
      assert [a[0]] + a[1..] == a;
    }
  }

  lemma {:induction false} SplitWithoutComma(a: string)
    requires ',' !in a
    ensures Split(a) == [a]
  {
    if a != "" {
      SplitWithoutComma(a[1..]);
      assert [a[0]] + a[1..] == a;
    }
  }

  lemma LeadingSpaceIsNothing(s: string)
    ensures Kept(Split(" " + s)) == Kept(Split(s))
  {
    var pieces := Split(s);
    assert (" " + s)[1..] == s;
    assert Split(" " + s) == [" " + pieces[0]] + pieces[1..];
    assert (" " + pieces[0])[1..] == pieces[0];
    assert Trim(" " + pieces[0]) == Trim(pieces[0]);
  }

  /** A printed list reads back as the same elements. */
  lemma {:induction false} PrintedListReadsBack(elements: seq<string>)
    requires AllClean(elements)
    ensures Kept(Split(Join(elements))) == elements
  {
    if elements == [] {
      assert Kept([""]) == [];
    } else if |elements| == 1 {
      assert elements[0] in elements;
      SplitWithoutComma(elements[0]);
      TrimmedIsClean(elements[0]);
    } else {
      assert elements[0] in elements;
      var rest := Join(elements[1..]);
      assert Join(elements) == elements[0] + "," + (" " + rest);
      SplitAtComma(elements[0], " " + rest);
      TrimmedIsClean(elements[0]);
      LeadingSpaceIsNothing(rest);
      PrintedListReadsBack(elements[1..]);
      assert ([elements[0]] + Split(" " + rest))[1..] == Split(" " + rest);
    }
  }

  lemma OneLine(line: string)
    ensures Elements(One(line)) == Kept(Split(line))
  {
    assert SplitAll([line]) == Split(line) + SplitAll([]);
    assert Split(line) + [] == Split(line);
  }

  /**
   * Appending a clean value: the earlier elements stay, in order, the value is there up to case,
   * added only when it was not, and appending it again changes nothing.
   */
  lemma AppendAddsAtMostTheValue(lower: Lower, existing: Existing, value: string)
    requires Clean(value)
    ensures var before := Elements(existing);
      var after := Elements(One(Append(lower, existing, value)));
      && after == (if Has(lower, before, value) then before else before + [value])
      && before <= after && Has(lower, after, value)
    ensures var printed := Append(lower, existing, value); Append(lower, One(printed), value) == printed
  {
    var before := Elements(existing);
    ElementsAreClean(existing);
    var printed := Append(lower, existing, value);
    var after := if Has(lower, before, value) then before else before + [value];
    PrintedListReadsBack(after);
    OneLine(printed);
    if !Has(lower, before, value) {
      assert lower(after[|before|]) == lower(value);
    }
  }

  lemma {:induction false} JoinGrows(elements: seq<string>, value: string)
    requires elements != []
    ensures Join(elements + [value]) == Join(elements) + ", " + value
  {
    assert (elements + [value])[1..] == elements[1..] + [value];
    if |elements| == 1 {
      assert [value][0] == value && Join([value]) == value;
    } else {
      JoinGrows(elements[1..], value);
    }
  }

  /** On a list this function printed itself, appending is textual. */
  lemma AppendIsTextual(lower: Lower, elements: seq<string>, value: string)
    requires AllClean(elements) && elements != []
    ensures Append(lower, One(Join(elements)), value) ==
            if Has(lower, elements, value) then Join(elements) else Join(elements) + ", " + value
  {
    PrintedListReadsBack(elements);
    OneLine(Join(elements));
    JoinGrows(elements, value);
  }

  /** Lower-casing never makes or removes a comma, an outer space or emptiness. */
  ghost predicate KeepsShape(lower: Lower) {
    forall a, b :: lower(a) == lower(b) ==> (Clean(a) <==> Clean(b))
  }

  /** The value is found again exactly when it is clean; the function never checks that. */
  lemma PresentExactlyWhenClean(lower: Lower, existing: Existing, value: string)
    requires KeepsShape(lower)
    ensures Has(lower, Elements(One(Append(lower, existing, value))), value) <==> Clean(value)
  {
    var after := Elements(One(Append(lower, existing, value)));
    ElementsAreClean(One(Append(lower, existing, value)));
    if Clean(value) {
      AppendAddsAtMostTheValue(lower, existing, value);
    } else {
      forall i | 0 <= i < |after| ensures lower(after[i]) != lower(value) {
        assert Clean(after[i]);
      }
    }
  }

  // ---------------------------------------------------------------- any writing of a list

  /** One element as somebody may have written it: spaced out on either side, or nothing but space. */
  datatype Written = Written(before: string, element: string, after: string)

  predicate AllSpace(s: string) { forall c <- s :: IsSpace(c) }

  predicate WellWritten(w: Written) { AllSpace(w.before) && AllSpace(w.after) && (w.element == "" || Clean(w.element)) }

  function Text(w: Written): string { w.before + w.element + w.after }

  function Texts(line: seq<Written>): string {
    if line == [] then ""
    else if |line| == 1 then Text(line[0])
    else Text(line[0]) + "," + Texts(line[1..])
  }

  function ElementsOf(line: seq<Written>): seq<string> {
    if line == [] then []
    else (if line[0].element == "" then [] else [line[0].element]) + ElementsOf(line[1..])
  }

  function AllTexts(lines: seq<seq<Written>>): seq<string> {
    if lines == [] then [] else [Texts(lines[0])] + AllTexts(lines[1..])
  }

  function AllElements(lines: seq<seq<Written>>): seq<string> {
    if lines == [] then [] else ElementsOf(lines[0]) + AllElements(lines[1..])
  }

  lemma {:induction false} LeftSpaceGoes(space: string, s: string)
    requires AllSpace(space) && (s == "" || !IsSpace(s[0]))
    ensures TrimLeft(space + s) == s
  {
    if space == "" {
      assert space + s == s;
    } else {
      assert (space + s)[1..] == space[1..] + s;
      LeftSpaceGoes(space[1..], s);
    }
  }

  lemma {:induction false} RightSpaceGoes(s: string, space: string)
    requires AllSpace(space) && (s == "" || !IsSpace(s[|s| - 1]))
    ensures TrimRight(s + space) == s
  {
    if space == "" {
      assert s + space == s;
    } else {
      var n := |space| - 1;
      assert (s + space)[..|s| + n] == s + space[..n];
      RightSpaceGoes(s, space[..n]);
    }
  }

  lemma TextTrims(w: Written)
    requires WellWritten(w)
    ensures Trim(Text(w)) == w.element && ',' !in Text(w)
  {
    if w.element == "" {
      assert Text(w) == w.before + w.after + "";
      LeftSpaceGoes(w.before + w.after, "");
    } else {
      assert Text(w) == w.before + (w.element + w.after);
      LeftSpaceGoes(w.before, w.element + w.after);
      RightSpaceGoes(w.element, w.after);
    }
  }

  lemma {:induction false} LineReadsBack(line: seq<Written>)
    requires forall w <- line :: WellWritten(w)
    ensures Kept(Split(Texts(line))) == ElementsOf(line)
  {
    if line == [] {
      assert Kept([""]) == [];
    } else {
      assert WellWritten(line[0]);
      TextTrims(line[0]);
      if |line| == 1 {
        SplitWithoutComma(Text(line[0]));
        assert line[1..] == [] && ElementsOf([]) == [];
        assert [Text(line[0])][1..] == [] && Kept([]) == [];
      } else {
        SplitAtComma(Text(line[0]), Texts(line[1..]));
        LineReadsBack(line[1..]);
        assert ([Text(line[0])] + Split(Texts(line[1..])))[1..] == Split(Texts(line[1..]));
      }
    }
  }

  lemma {:induction false} KeptOfBoth(a: seq<string>, b: seq<string>)
    ensures Kept(a + b) == Kept(a) + Kept(b)
  {
    if a == [] {
      assert a + b == b;
    } else {
      assert (a + b)[1..] == a[1..] + b;
      KeptOfBoth(a[1..], b);
    }
  }

  /**
   * However a list was written, over any number of header lines, with any spacing and any empty elements,
   * its elements are read back in order.
   */
  lemma {:induction false} AnyWritingReadsBack(lines: seq<seq<Written>>)
    requires forall line <- lines :: forall w <- line :: WellWritten(w)
    ensures Elements(Many(AllTexts(lines))) == AllElements(lines)
  {
    if lines == [] {
      assert AllTexts(lines) == [];
    } else {
      assert lines[0] in lines;
      LineReadsBack(lines[0]);
      assert forall line <- lines[1..] :: line in lines;
      AnyWritingReadsBack(lines[1..]);
      var texts := AllTexts(lines);
      assert texts[1..] == AllTexts(lines[1..]);
      KeptOfBoth(Split(texts[0]), SplitAll(texts[1..]));
    }
  }
}
