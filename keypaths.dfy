/** Slash-separated dataset keys and the names of their conversion attributes.

    A dataset key such as `recording/ch1/data` is split on `/` the way
    Python's `str.split("/")` does.  The parent group is every part but the
    last joined back with `/`, the leaf is the last part, and the linear
    offset and scale of the dataset are attributes of the parent group named
    after the leaf.
 */
module KeyPaths {

  const Separator: char := '/'
  const OffsetSuffix: string := "_Conversion_ConversionLinearOffset"
  const ScaleSuffix: string := "_Conversion_ConversionLinearScale"

  // ---------------------------------------------------------------------
  // Splitting and joining
  // ---------------------------------------------------------------------

  /** `s.split("/")`: the maximal separator-free pieces, in order, including
      empty pieces before a leading, after a trailing and between adjacent
      separators; the empty key gives one empty piece. */
  function Split(s: string): (parts: seq<string>)
    ensures |parts| >= 1
    ensures forall i :: 0 <= i < |parts| ==> Separator !in parts[i]
  {
    if s == [] then
      [""]
    else
      var parts := Split(s[..|s| - 1]);
      var c := s[|s| - 1];
      if c == Separator then parts + [""]
      else parts[..|parts| - 1] + [parts[|parts| - 1] + [c]]
  }

  /** `"/".join(parts)` */
  function Join(parts: seq<string>): string
  {
    if |parts| == 0 then ""
    else if |parts| == 1 then parts[0]
    else Join(parts[..|parts| - 1]) + [Separator] + parts[|parts| - 1]
  }

  /** Joining the pieces of a split gives the key back. */
  lemma {:induction false} JoinSplit(s: string)
    ensures Join(Split(s)) == s
  {
    if s != [] {
      var init, c := s[..|s| - 1], s[|s| - 1];
      var parts := Split(init);
      JoinSplit(init);
      var k := |parts| - 1;
      if c != Separator && k > 0 {
        var q := parts[..k] + [parts[k] + [c]];
        assert q[..k] == parts[..k];
      }
    }
  }

  /** Splitting after a separator adds the separator-free tail as one more piece. */
  lemma {:induction false} SplitAppend(s: string, t: string)
    requires Separator !in t
    ensures Split(s + [Separator] + t) == Split(s) + [t]
  {
    if t == [] {
      assert s + [Separator] + t == s + [Separator];
      assert (s + [Separator])[..|s|] == s;
    } else {
      var init := t[..|t| - 1];
      SplitAppend(s, init);
      var u := s + [Separator] + t;
      assert u[..|u| - 1] == s + [Separator] + init;
      assert u[|u| - 1] == t[|t| - 1] != Separator;
      var parts := Split(s) + [init];
      assert parts[..|parts| - 1] == Split(s);
      assert init + [t[|t| - 1]] == t;
    }
  }

  /** A separator-free key is a single piece. */
  lemma {:induction false} SplitNoSeparator(t: string)
    requires Separator !in t
    ensures Split(t) == [t]
  {
    if t != [] {
      SplitNoSeparator(t[..|t| - 1]);
      assert t[..|t| - 1] + [t[|t| - 1]] == t;
    }
  }

  /** Splitting a join of separator-free pieces gives the pieces back. */
  lemma {:induction false} SplitJoin(parts: seq<string>)
    requires |parts| >= 1
    requires forall i :: 0 <= i < |parts| ==> Separator !in parts[i]
    ensures Split(Join(parts)) == parts
  {
    var k := |parts| - 1;
    if k == 0 {
      SplitNoSeparator(parts[0]);
    } else {
      SplitJoin(parts[..k]);
      SplitAppend(Join(parts[..k]), parts[k]);
      assert parts[..k] + [parts[k]] == parts;
    }
  }

  /** A key splits into more than one piece exactly when it holds a separator. */
  lemma {:induction false} SplitLength(s: string)
    ensures |Split(s)| >= 2 <==> Separator in s
  {
    if s != [] {
      var init := s[..|s| - 1];
      SplitLength(init);
      assert s == init + [s[|s| - 1]];
    }
  }

  // ---------------------------------------------------------------------
  // Parent group and leaf name
  // ---------------------------------------------------------------------

  /** `"/".join(key.split("/")[0:-1])`: the key of the parent group. */
  function Group(key: string): string
  {
    var parts := Split(key);
    Join(parts[..|parts| - 1])
  }

  /** `key.split("/")[-1]`: the name of the dataset inside its group. */
  function Leaf(key: string): (leaf: string)
    ensures Separator !in leaf
  {
    var parts := Split(key);
    parts[|parts| - 1]
  }

  /** A key with a separator is its group, a separator and its leaf; a key
      without one is all leaf, in the empty group.  Since the leaf holds no
      separator, it is exactly the text after the last separator. */
  lemma GroupLeaf(key: string)
    ensures Separator in key ==> Group(key) + [Separator] + Leaf(key) == key
    ensures Separator !in key ==> Group(key) == "" && Leaf(key) == key
  {
    JoinSplit(key);
    SplitLength(key);
    if Separator !in key {
      SplitNoSeparator(key);
    }
  }

  // ---------------------------------------------------------------------
  // Conversion attributes
  // ---------------------------------------------------------------------

  /** An attribute `name` attached to the group with key `group`. */
  datatype AttributeRef = AttributeRef(group: string, name: string)

  /** Where `get_linear_offset` looks for the offset of dataset `key`. */
  function LinearOffsetAttribute(key: string): AttributeRef
  {
    AttributeRef(Group(key), Leaf(key) + OffsetSuffix)
  }

  /** Where `get_linear_scale` looks for the scale of dataset `key`. */
  function LinearScaleAttribute(key: string): AttributeRef
  {
    AttributeRef(Group(key), Leaf(key) + ScaleSuffix)
  }

  /** Each attribute name is the leaf followed by its fixed suffix, and for a
      key with a separator the group and the name without the suffix give the
      key back. */
  lemma AttributesLocateDataset(key: string)
    ensures var r := LinearOffsetAttribute(key);
            && r.name[..|r.name| - |OffsetSuffix|] == Leaf(key)
            && r.name[|r.name| - |OffsetSuffix|..] == OffsetSuffix
            && (Separator in key ==> r.group + [Separator] + r.name[..|r.name| - |OffsetSuffix|] == key)
    ensures var r := LinearScaleAttribute(key);
            && r.name[..|r.name| - |ScaleSuffix|] == Leaf(key)
            && r.name[|r.name| - |ScaleSuffix|..] == ScaleSuffix
            && (Separator in key ==> r.group + [Separator] + r.name[..|r.name| - |ScaleSuffix|] == key)
  {
    GroupLeaf(key);
  }

  /** An offset attribute name never equals a scale attribute name, whatever
      the two datasets are. */
  lemma OffsetNeverScale(k1: string, k2: string)
    ensures LinearOffsetAttribute(k1).name != LinearScaleAttribute(k2).name
  {
    var a, b := LinearOffsetAttribute(k1).name, LinearScaleAttribute(k2).name;
    assert a[|a| - 1] == 't' && b[|b| - 1] == 'e';
  }

  /** Two different keys that both hold a separator, or both hold none,
      never share an offset or a scale attribute: equal group and equal
      attribute name force equal keys.  A key with a separator and one
      without can collide; see `LeadingSeparatorCollides`. */
  lemma AttributesDistinguishKeys(k1: string, k2: string)
    requires (Separator in k1) == (Separator in k2)
    requires LinearOffsetAttribute(k1) == LinearOffsetAttribute(k2)
             || LinearScaleAttribute(k1) == LinearScaleAttribute(k2)
    ensures k1 == k2
  {
    GroupLeaf(k1);
    GroupLeaf(k2);
    AttributesLocateDataset(k1);
    AttributesLocateDataset(k2);
  }

  /** `/x` and `x` have the same empty group and the same leaf, so they look
      for their conversion attributes in the same place. */
  lemma LeadingSeparatorCollides()
    ensures LinearOffsetAttribute("/x") == LinearOffsetAttribute("x")
    ensures LinearScaleAttribute("/x") == LinearScaleAttribute("x")
  {
  }
}
