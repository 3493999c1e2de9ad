/** TaskPerformerInfo: the descriptor of a class of compute resource,
    identified by the text "Name-Version". */
module ResourceDescriptors {
  import opened Primitives

  datatype TaskPerformerInfo = TaskPerformerInfo(name: string, version: string)

  /** Position of the first '-' in `s`, or -1 when there is none. */
  function IndexOfDash(s: string): (i: int)
    ensures -1 <= i < |s|
    ensures i == -1 <==> '-' !in s
    ensures 0 <= i ==> s[i] == '-' && '-' !in s[..i]
  {
    if s == [] then -1
    else if s[0] == '-' then 0
    else
      var j := IndexOfDash(s[1..]);
      assert s[1..][..j + 1] == s[1..j + 2] by { if 0 <= j { assert s[1..][..j] == s[1..j + 1]; } }
      if j == -1 then -1 else j + 1
  }

  /** The constructor TaskPerformerInfo(identifier): a null or blank
      identifier gives empty name and version; otherwise the identifier is
      split at its first '-' (Split('-', 2)). */
  function Parse(identifier: Option<string>): (r: TaskPerformerInfo)
    ensures IsNullOrWhiteSpace(identifier) ==> r == TaskPerformerInfo("", "")
    ensures !IsNullOrWhiteSpace(identifier) && '-' !in identifier.value ==>
              r == TaskPerformerInfo(identifier.value, "")
    ensures !IsNullOrWhiteSpace(identifier) && '-' in identifier.value ==>
              '-' !in r.name && identifier.value == r.name + "-" + r.version
  {
    if IsNullOrWhiteSpace(identifier) then TaskPerformerInfo("", "")
    else
      var s := identifier.value;
      var i := IndexOfDash(s);
      if i < 0 then TaskPerformerInfo(s, "")
      else
        assert s == s[..i] + "-" + s[i + 1..];
        TaskPerformerInfo(s[..i], s[i + 1..])
  }

  /** ToString(): "Name-Version". */
  function ToString(info: TaskPerformerInfo): (s: string)
    ensures |s| == |info.name| + 1 + |info.version|
    ensures s[..|info.name|] == info.name && s[|info.name|] == '-'
    ensures s[|info.name| + 1..] == info.version
  {
    info.name + "-" + info.version
  }

  /** Equals(TaskPerformerInfo): false against null, otherwise field-wise
      comparison of Name and Version. */
  function Equals(a: TaskPerformerInfo, other: Option<TaskPerformerInfo>): (r: bool)
    ensures r <==> other == Some(a)
  {
    other.Some? && a.name == other.value.name && a.version == other.value.version
  }

  /** Parsing the text of a descriptor whose name has no '-' gives the same
      descriptor back, whatever its version holds. */
  lemma {:induction false} ParseToString(info: TaskPerformerInfo)
    requires '-' !in info.name
    ensures Parse(Some(ToString(info))) == info
  {
    var s := ToString(info);
    var n := |info.name|;
    assert s[n] == '-' && !IsWhiteSpaceChar(s[n]);
    var i := IndexOfDash(s);
    assert s[..n] == info.name;
  }

  /** A descriptor with a '-' in its name does not survive the round trip:
      the first '-' is taken as the separator. */
  lemma ParseToStringDashInName()
    ensures Parse(Some(ToString(TaskPerformerInfo("a-b", "1")))) == TaskPerformerInfo("a", "b-1")
  {
    var s := ToString(TaskPerformerInfo("a-b", "1"));
    assert s == "a-b-1";
    assert IndexOfDash(s) == 1;
    assert !IsWhiteSpaceChar(s[0]);
  }
}
