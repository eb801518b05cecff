/** The maps and slices of the store as Go has them: a variable of map type
    refers to entries it may share with other variables, and a slice refers to
    an array it may share with other slices. */
module Collections {

  /** A map that is updated in place. */
  class Table<V> {
    var entries: map<string, V>

    constructor ()
      ensures entries == map[]
    {
      entries := map[];
    }
  }

  /** The entries of a map; a nil map reads as an empty one. */
  function Entries<V>(t: Table?<V>): map<string, V>
    reads t
  {
    if t == null then map[] else t.entries
  }

  ghost function Only(o: object?): set<object> { if o == null then {} else {o} }

  /** The first count elements of an array.  The rest is spare capacity. */
  datatype Slice<T> = Slice(data: array<T>, count: nat) {

    predicate Valid() { count <= data.Length }

    function View(): seq<T>
      reads data
    {
      if Valid() then data[..count] else []
    }
  }

  /** An empty slice, with no capacity. */
  method NewSlice<T>() returns (s: Slice<T>)
    ensures s.Valid() && fresh(s.data) && s.View() == []
  {
    var data := new T[0];
    s := Slice(data, 0);
  }

  /** Go's append: in place while there is capacity, else into a larger array. */
  method Append<T>(s: Slice<T>, x: T) returns (longer: Slice<T>)
    requires s.Valid()
    modifies s.data
    ensures longer.Valid() && (longer.data == s.data || fresh(longer.data))
    ensures longer.View() == old(s.View()) + [x]
  {
    var n, data := s.count, s.data;
    if n == data.Length {
      data := new T[2 * n + 1](i requires 0 <= i reads s.data => if i < s.data.Length then s.data[i] else x);
      assert data[..n] == s.data[..n];
    }
    data[n] := x;
    longer := Slice(data, n + 1);
    assert data[..n + 1] == old(s.View()) + [x];
  }

  /** A slice of the same elements in an array of its own. */
  method CopySlice<T>(s: Slice<T>) returns (copy: Slice<T>)
    requires s.Valid()
    ensures copy.Valid() && fresh(copy.data) && copy.View() == s.View()
  {
    if s.count == 0 {
      copy := NewSlice();
    } else {
      var data := new T[s.count](i requires 0 <= i < s.count reads s.data => s.data[i]);
      copy := Slice(data, s.count);
      assert data[..] == s.data[..s.count];
    }
  }

  /** A map of its own with the same entries, copied one by one in any order. */
  method CopyTable<V>(t: Table<V>) returns (copy: Table<V>)
    ensures fresh(copy) && copy.entries == t.entries
  {
    copy := new Table();
    var todo := t.entries.Keys;
    while todo != {}
      invariant todo <= t.entries.Keys && copy.entries.Keys == t.entries.Keys - todo
      invariant forall k | k in copy.entries :: copy.entries[k] == t.entries[k]
      decreases |todo|
    {
      var k :| k in todo;
      todo := todo - {k};
      copy.entries := copy.entries[k := t.entries[k]];
    }
  }

  /** A map to write to: the given one, or a new one in place of nil. */
  method OrNew<V>(t: Table?<V>) returns (u: Table<V>)
    ensures u.entries == Entries(t) && fresh(Only(u) - Only(t))
  {
    if t == null {
      u := new Table();
    } else {
      u := t;
    }
  }
}
