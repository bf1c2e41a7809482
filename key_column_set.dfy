/** The key-column sets of the plugin SDK (plugin/key_column_set.go): the
    columns that identify a single row of a table, given as one column, as a
    set of columns that together form the key, or as a set of columns any one
    of which is a key.  Go's nil slice is `None`; a non-nil empty slice is
    `Some([])`, and the rendering tells the two apart. */
module Plugin {
  import opened Wrappers
  import opened Text

  datatype KeyColumnSet = KeyColumnSet(single: string, all: Option<seq<string>>, any: Option<seq<string>>)

  const SinglePrefix := "column: "
  const AllPrefix := "all columns: "
  const AnyPrefix := "one of columns: "

  /** The set with no field populated. */
  const Unset := KeyColumnSet("", None, None)

  /** `ToString`: the first populated field in the order Single, All, Any
      decides the rendering; each is marked by its own prefix, and only the
      set with nothing populated renders as the empty string. */
  function ToString(k: KeyColumnSet): (r: string)
    ensures r == "" <==> k == Unset
    ensures HasPrefix(r, SinglePrefix) <==> k.single != ""
    ensures HasPrefix(r, AllPrefix) <==> k.single == "" && k.all.Some?
    ensures HasPrefix(r, AnyPrefix) <==> k.single == "" && k.all.None? && k.any.Some?
  {
    if k.single != "" then
      var r := SinglePrefix + k.single;
      assert r[0] == 'c' && r[..|SinglePrefix|] == SinglePrefix;
      r
    else if k.all.Some? then
      var r := AllPrefix + Join(k.all.value, ",");
      assert r[0] == 'a' && r[..|AllPrefix|] == AllPrefix;
      r
    else if k.any.Some? then
      var r := AnyPrefix + Join(k.any.value, ",");
      assert r[0] == 'o' && r[..|AnyPrefix|] == AnyPrefix;
      r
    else ""
  }

  /** `SingleColumn(column)`: only Single is set. */
  function SingleColumn(column: string): (k: KeyColumnSet)
    ensures k.all.None? && k.any.None?
    ensures ToString(k) == if column == "" then "" else SinglePrefix + column
  {
    KeyColumnSet(column, None, None)
  }

  /** `AllColumns(columns)`: only All is set; a nil slice leaves nothing set. */
  function AllColumns(columns: Option<seq<string>>): (k: KeyColumnSet)
    ensures k.single == "" && k.any.None?
    ensures ToString(k) == if columns.None? then "" else AllPrefix + Join(columns.value, ",")
  {
    KeyColumnSet("", columns, None)
  }

  /** `AnyColumn(columns)`: only Any is set; a nil slice leaves nothing set. */
  function AnyColumn(columns: Option<seq<string>>): (k: KeyColumnSet)
    ensures k.single == "" && k.all.None?
    ensures ToString(k) == if columns.None? then "" else AnyPrefix + Join(columns.value, ",")
  {
    KeyColumnSet("", None, columns)
  }

  /** The field that wins the precedence, alone: what the rendering shows. */
  function Canonical(k: KeyColumnSet): (c: KeyColumnSet)
    ensures ToString(c) == ToString(k)
  {
    if k.single != "" then SingleColumn(k.single)
    else if k.all.Some? then AllColumns(k.all)
    else if k.any.Some? then AnyColumn(k.any)
    else Unset
  }

  /** Column names that survive a rendering: non-empty and comma-free. */
  predicate PlainNames(names: Option<seq<string>>) {
    names.Some? ==> forall k :: 0 <= k < |names.value| ==> names.value[k] != "" && ',' !in names.value[k]
  }

  /** The column list after a prefix; an empty text is the empty list. */
  function ColumnList(text: string): seq<string> {
    if text == "" then [] else Split(text, ',')
  }

  /** Reads a rendering back: the reference the rendering is checked against. */
  function Parse(text: string): KeyColumnSet {
    if HasPrefix(text, SinglePrefix) then SingleColumn(text[|SinglePrefix|..])
    else if HasPrefix(text, AllPrefix) then AllColumns(Some(ColumnList(text[|AllPrefix|..])))
    else if HasPrefix(text, AnyPrefix) then AnyColumn(Some(ColumnList(text[|AnyPrefix|..])))
    else Unset
  }

  lemma ColumnListJoin(names: seq<string>)
    requires PlainNames(Some(names))
    ensures ColumnList(Join(names, ",")) == names
  {
    if names != [] {
      assert Join(names, ",")[..|names[0]|] == names[0];
      SplitJoin(names, ',');
    }
  }

  /** The rendering loses nothing but the fields that precedence hides: read
      back, it gives the winning field, nil-versus-empty included. */
  lemma ParseToString(k: KeyColumnSet)
    requires PlainNames(k.all) && PlainNames(k.any)
    ensures Parse(ToString(k)) == Canonical(k)
  {
    var r := ToString(k);
    if k.single != "" {
      assert r[|SinglePrefix|..] == k.single;
    } else if k.all.Some? {
      assert r[|AllPrefix|..] == Join(k.all.value, ",");
      ColumnListJoin(k.all.value);
    } else if k.any.Some? {
      assert r[|AnyPrefix|..] == Join(k.any.value, ",");
      ColumnListJoin(k.any.value);
    }
  }

  /** Two key-column sets with plain names render alike only when their
      winning fields agree. */
  lemma ToStringDeterminesWinner(k1: KeyColumnSet, k2: KeyColumnSet)
    requires PlainNames(k1.all) && PlainNames(k1.any)
    requires PlainNames(k2.all) && PlainNames(k2.any)
    requires ToString(k1) == ToString(k2)
    ensures Canonical(k1) == Canonical(k2)
  {
    ParseToString(k1);
    ParseToString(k2);
  }

  /** A non-empty Single shows, whatever All and Any hold. */
  lemma SingleWins(k: KeyColumnSet)
    requires k.single != ""
    ensures ToString(k) == SinglePrefix + k.single
  {
  }

  /** With Single empty, a non-nil All shows, whatever Any holds; a non-nil
      empty All renders as the bare prefix. */
  lemma AllBeforeAny(k: KeyColumnSet)
    requires k.single == "" && k.all.Some?
    ensures ToString(k) == AllPrefix + Join(k.all.value, ",")
    ensures k.all.value == [] ==> ToString(k) == AllPrefix
  {
  }

  /** Any shows only when Single is empty and All is nil. */
  lemma AnyLast(k: KeyColumnSet)
    requires k.single == "" && k.all.None? && k.any.Some?
    ensures ToString(k) == AnyPrefix + Join(k.any.value, ",")
  {
  }
}
