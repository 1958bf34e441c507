/** The class-string builders of demo/kombech_leptos/src/type_safe_components.rs:
    `TailwindClass`, a list of utility classes joined with single spaces,
    and `ResponsiveClass`, a base class plus one optional class per
    breakpoint. The Rust builders take `self` by value and hand it back;
    here they are methods that update the object in place. */
module TypeSafeComponents {
  import opened Results

  const SPACE: char := ' '

  /** The number of characters in all the parts together. */
  function Lengths(parts: seq<string>): nat
  {
    if |parts| == 0 then 0 else |parts[0]| + Lengths(parts[1..])
  }

  /** `join(" ")`: the parts with a single space between neighbours, so
      the characters of the parts and one space per pair of neighbours. */
  function Join(parts: seq<string>): (r: string)
    ensures |parts| == 0 ==> r == ""
    ensures |parts| > 0 ==> |r| == Lengths(parts) + |parts| - 1
  {
    if |parts| == 0 then ""
    else if |parts| == 1 then parts[0]
    else parts[0] + [SPACE] + Join(parts[1..])
  }

  /** Splitting on every space (`split(' ')`); the empty string gives one
      empty part. */
  function Split(s: string): (r: seq<string>)
    ensures |r| > 0
  {
    if |s| == 0 then [""]
    else if s[0] == SPACE then [""] + Split(s[1..])
    else var rest := Split(s[1..]); [[s[0]] + rest[0]] + rest[1..]
  }

  /** A word: a class name without spaces. */
  predicate IsWord(w: string)
  {
    SPACE !in w
  }

  /** Appending a part extends the joined string by a space and that part. */
  lemma {:induction false} JoinAppend(parts: seq<string>, x: string)
    ensures Join(parts + [x]) == if |parts| == 0 then x else Join(parts) + [SPACE] + x
  {
    if |parts| > 1 {
      var rest := parts[1..];
      assert (parts + [x])[1..] == rest + [x];
      JoinAppend(rest, x);
    } else if |parts| == 1 {
      assert (parts + [x])[1..] == [x];
    }
  }

  /** A word followed by a space and more text splits off as its own part. */
  lemma {:induction false} SplitWord(w: string, rest: string)
    requires IsWord(w)
    ensures Split(w + [SPACE] + rest) == [w] + Split(rest)
  {
    if |w| > 0 {
      assert (w + [SPACE] + rest)[1..] == w[1..] + [SPACE] + rest;
      SplitWord(w[1..], rest);
      assert [w[0]] + w[1..] == w;
    }
  }

  /** A word splits to itself. */
  lemma {:induction false} SplitSingle(w: string)
    requires IsWord(w)
    ensures Split(w) == [w]
  {
    if |w| > 0 {
      SplitSingle(w[1..]);
      assert [w[0]] + w[1..] == w;
    }
  }

  /** Joining words and splitting on spaces gives the words back, so the
      class string records each class, in order. */
  lemma {:induction false} SplitJoin(parts: seq<string>)
    requires |parts| > 0
    requires forall i :: 0 <= i < |parts| ==> IsWord(parts[i])
    ensures Split(Join(parts)) == parts
  {
    if |parts| == 1 {
      SplitSingle(parts[0]);
    } else {
      SplitJoin(parts[1..]);
      SplitWord(parts[0], Join(parts[1..]));
      assert [parts[0]] + parts[1..] == parts;
    }
  }

  /** `TailwindClass`. */
  class TailwindClass {
    var classes: seq<string>

    /** `new`: no classes. */
    constructor ()
      ensures classes == []
    {
      classes := [];
    }

    /** `add`: appends exactly one entry. */
    method Add(c: string)
      modifies this
      ensures classes == old(classes) + [c]
    {
      classes := classes + [c];
    }

    /** `add_when`: appends the entry exactly when `condition` holds. */
    method AddWhen(c: string, condition: bool)
      modifies this
      ensures condition ==> classes == old(classes) + [c]
      ensures !condition ==> classes == old(classes)
    {
      if condition {
        classes := classes + [c];
      }
    }

    /** `to_string`: the classes joined by single spaces, in insertion order. */
    function ToString(): (s: string)
      reads this
      ensures |classes| == 0 ==> s == ""
      ensures |classes| > 0 && (forall i :: 0 <= i < |classes| ==> IsWord(classes[i])) ==> Split(s) == classes
    {
      if |classes| > 0 && (forall i :: 0 <= i < |classes| ==> IsWord(classes[i])) then
        SplitJoin(classes);
        Join(classes)
      else
        Join(classes)
    }
  }

  /** After `add`, the class string grows by a space and the new class (or
      becomes that class when it was empty). */
  lemma AddExtendsString(before: seq<string>, c: string)
    ensures Join(before + [c]) == if before == [] then c else Join(before) + " " + c
  {
    JoinAppend(before, c);
  }

  datatype Breakpoint = SM | MD | LG | XL

  /** The Tailwind variant prefix of a breakpoint. */
  function Prefix(bp: Breakpoint): (p: string)
    ensures |p| == 3 && p[2] == ':'
  {
    match bp
    case SM => "sm:"
    case MD => "md:"
    case LG => "lg:"
    case XL => "xl:"
  }

  /** What `if let Some(v) = slot { classes.push(v) }` adds. */
  function Pushed(slot: Option<string>): seq<string>
  {
    if slot.Some? then [slot.value] else []
  }

  /** `ResponsiveClass`. */
  class ResponsiveClass {
    var base: string
    var sm: Option<string>
    var md: Option<string>
    var lg: Option<string>
    var xl: Option<string>

    /** `new`: the base class and no breakpoint class. */
    constructor (base: string)
      ensures this.base == base && sm == None && md == None && lg == None && xl == None
    {
      this.base := base;
      sm, md, lg, xl := None, None, None, None;
    }

    /** `with`: puts the prefixed value in the breakpoint's slot, replacing
        what was there; the other slots and the base stay. */
    method With(bp: Breakpoint, value: string)
      modifies this
      ensures base == old(base)
      ensures sm == (if bp == SM then Some(Prefix(SM) + value) else old(sm))
      ensures md == (if bp == MD then Some(Prefix(MD) + value) else old(md))
      ensures lg == (if bp == LG then Some(Prefix(LG) + value) else old(lg))
      ensures xl == (if bp == XL then Some(Prefix(XL) + value) else old(xl))
    {
      var c := Prefix(bp) + value;
      match bp {
        case SM => sm := Some(c);
        case MD => md := Some(c);
        case LG => lg := Some(c);
        case XL => xl := Some(c);
      }
    }

    /** The classes `to_string` emits: the base, then the present
        breakpoint classes from the smallest breakpoint up. */
    function Classes(): seq<string>
      reads this
    {
      [base] + Pushed(sm) + Pushed(md) + Pushed(lg) + Pushed(xl)
    }

    /** `to_string`: starts from the base and pushes each present
        breakpoint class in the order sm, md, lg, xl, then joins. */
    method ToString() returns (s: string)
      ensures s == Join(Classes())
    {
      var parts := [base];
      if sm.Some? {
        parts := parts + [sm.value];
      }
      assert parts == [base] + Pushed(sm);
      if md.Some? {
        parts := parts + [md.value];
      }
      assert parts == [base] + Pushed(sm) + Pushed(md);
      if lg.Some? {
        parts := parts + [lg.value];
      }
      assert parts == [base] + Pushed(sm) + Pushed(md) + Pushed(lg);
      if xl.Some? {
        parts := parts + [xl.value];
      }
      assert parts == Classes();
      s := Join(parts);
    }
  }

  /** The string always starts with the base class; with no breakpoint
      class it is the base alone, and each present slot adds one class. */
  lemma ClassesOfSlots(base: string, sm: Option<string>, md: Option<string>, lg: Option<string>, xl: Option<string>)
    ensures var parts := [base] + Pushed(sm) + Pushed(md) + Pushed(lg) + Pushed(xl);
      && parts[0] == base
      && |parts| == 1 + (if sm.Some? then 1 else 0) + (if md.Some? then 1 else 0) + (if lg.Some? then 1 else 0) + (if xl.Some? then 1 else 0)
      && (sm == None && md == None && lg == None && xl == None ==> Join(parts) == base)
  {
  }
}
