/**
 * The text of the Roles cell: the role names joined with ';' (string.Join), and the
 * reading that splits such a cell on ';' again.
 */
module RolesCell {

  const Separator: char := ';'

  /** The total length of the names. */
  function TotalLength(names: seq<string>): nat
  {
    if names == [] then 0 else |names[0]| + TotalLength(names[1..])
  }

  /** The names in order with one separator between neighbours; no names give "". */
  function Join(names: seq<string>): (cell: string)
    ensures names == [] ==> cell == ""
    ensures names != [] ==> |cell| == TotalLength(names) + |names| - 1
    ensures names != [] ==> cell[..|names[0]|] == names[0]
  {
    if |names| == 0 then ""
    else if |names| == 1 then names[0]
    else names[0] + [Separator] + Join(names[1..])
  }

  /** Splitting a cell at every separator; like String.Split, "" gives one empty part. */
  function Split(s: string): (parts: seq<string>)
    ensures |parts| >= 1
  {
    if s == [] then [""]
    else
      var rest := Split(s[1..]);
      if s[0] == Separator then [""] + rest
      else [[s[0]] + rest[0]] + rest[1..]
  }

  predicate NoSeparator(name: string)
  {
    Separator !in name
  }

  /** A part free of separators is read back whole. */
  lemma {:induction false} SplitPlain(a: string)
    requires NoSeparator(a)
    ensures Split(a) == [a]
  {
    if a != [] {
      SplitPlain(a[1..]);
      assert [a[0]] + a[1..] == a;
    }
  }

  /** A separator-free first part followed by a separator is split off as one part. */
  lemma {:induction false} SplitFirst(a: string, b: string)
    requires NoSeparator(a)
    ensures Split(a + [Separator] + b) == [a] + Split(b)
  {
    if a == [] {
      assert a + [Separator] + b == [Separator] + b;
      assert ([Separator] + b)[1..] == b;
    } else {
      assert (a + [Separator] + b)[1..] == a[1..] + [Separator] + b;
      SplitFirst(a[1..], b);
      assert [a[0]] + a[1..] == a;
    }
  }

  /** Splitting the Roles cell gives back the role names, in order, when there is at least
   *  one and none of them contains the separator. */
  lemma {:induction false} SplitJoin(names: seq<string>)
    requires |names| >= 1
    requires forall k :: 0 <= k < |names| ==> NoSeparator(names[k])
    ensures Split(Join(names)) == names
  {
    if |names| == 1 {
      SplitPlain(names[0]);
    } else {
      SplitFirst(names[0], Join(names[1..]));
      SplitJoin(names[1..]);
      assert [names[0]] + names[1..] == names;
    }
  }

  /** The zero-role and the one-empty-role cells cannot be told apart: both are "". */
  lemma EmptyCellAmbiguous()
    ensures Join([]) == Join([""]) == ""
    ensures Split(Join([])) == [""] != []
  {
  }
}
