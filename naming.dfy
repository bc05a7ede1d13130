/**
 * How the factory names and identifies a group: argument checking
 * (`check_arguments`), the group key (`create_group_key`), the file-name
 * stem (`gstem`) and the display name (`group_name`).
 */
module Naming {
  import opened Common
  import opened Text
  import opened Groups
  import opened Keys

  /** A positional argument that should be a group of the backend. */
  datatype GroupObj = Gap(group: Group) | Foreign   // Foreign: an object without `parent`

  /** The positional arguments of a factory call. */
  datatype GroupArgs =
    | Address(q: int, n: int)       // two integers: a SmallGroups address
    | OneGroup(g: GroupObj)         // one group
    | Arity(count: nat)             // any other number of arguments

  predicate WellFormedArity(args: GroupArgs)
  {
    args.Arity? ==> args.count != 1 && args.count != 2
  }

  /**
   * `check_arguments`: the order of the group and the group itself, with a
   * generating set starting with a minimal one in the prime-power case.
   */
  function CheckArguments(args: GroupArgs, minimalGenerators: bool, groupId: Option<(int, int)>, b: Backend)
    : (r: Result<(int, Group)>)
    requires WellFormedArity(args)
    ensures args.Arity? ==> r == Err(BadArity)
    ensures args.OneGroup? && r.Ok? ==> r.value.0 != 1
    ensures args.Address? && r.Ok? ==>
      r.value == (args.q, b.smallGroup(args.q, args.n))
      && b.numberSmallGroups(args.q).Some? && 1 <= args.n <= b.numberSmallGroups(args.q).value
      && (groupId.Some? ==> groupId.value == (args.q, args.n))
    ensures args.Address? && groupId.Some? && groupId.value != (args.q, args.n) ==> r == Err(GroupIdMismatch)
    ensures args.OneGroup? && args.g.Foreign? ==> r == Err(NotAGapGroup)
    ensures args.OneGroup? && r.Ok? ==>
      var g := args.g.group;
      (groupId.Some? ==> b.canonicallyIsomorphic(g, b.smallGroup(groupId.value.0, groupId.value.1))
                         && r.value.0 == groupId.value.0)
      && (groupId.None? ==> r.value.0 == b.order(g))
      && (minimalGenerators || !IsPrimePower(r.value.0) ==> r.value.1 == g)
      && (!minimalGenerators && IsPrimePower(r.value.0) ==> b.admissible(g) == Some(r.value.1))
    // a SmallGroups address: accepted exactly when it agrees with `GroupId` and lies in the library
    ensures args.Address? ==>
      var max := b.numberSmallGroups(args.q);
      && (r.Ok? <==> (groupId.None? || groupId.value == (args.q, args.n)) && max.Some? && 1 <= args.n <= max.value)
      && ((groupId.None? || groupId.value == (args.q, args.n)) && max.None? ==> r == Err(NoSmallGroupsLibrary))
      && ((groupId.None? || groupId.value == (args.q, args.n)) && max.Some? && !(1 <= args.n <= max.value) ==>
            r == Err(IndexOutOfRange))
    // a group: the `GroupId` check, then the trivial group, then the minimal generating set
    ensures args.OneGroup? && args.g.Gap? ==>
      var g := args.g.group;
      var idOk := groupId.None? || b.canonicallyIsomorphic(g, b.smallGroup(groupId.value.0, groupId.value.1));
      var q := if groupId.Some? then groupId.value.0 else b.order(g);
      && (!idOk ==> r == Err(GroupIdMismatch))
      && (idOk && q == 1 ==> r == Err(TrivialGroup))
      && (idOk && q != 1 && !minimalGenerators && IsPrimePower(q) && b.admissible(g).None? ==> r == Err(NotAdmissible))
      && (r.Ok? <==> idOk && q != 1 && (minimalGenerators || !IsPrimePower(q) || b.admissible(g).Some?))
  {
    match args
    case Arity(_) => Err(BadArity)
    case Address(q, n) =>
      if groupId.Some? && groupId.value != (q, n) then Err(GroupIdMismatch)
      else if b.numberSmallGroups(q).None? then Err(NoSmallGroupsLibrary)
      else if !(1 <= n <= b.numberSmallGroups(q).value) then Err(IndexOutOfRange)
      else Ok((q, b.smallGroup(q, n)))
    case OneGroup(Foreign) => Err(NotAGapGroup)
    case OneGroup(Gap(g)) =>
      if groupId.Some? && !b.canonicallyIsomorphic(g, b.smallGroup(groupId.value.0, groupId.value.1)) then
        Err(GroupIdMismatch)
      else
        var q := if groupId.Some? then groupId.value.0 else b.order(g);
        if q == 1 then Err(TrivialGroup)
        else if minimalGenerators || !IsPrimePower(q) then Ok((q, g))
        else match b.admissible(g)
          case Some(h) => Ok((q, h))
          case None => Err(NotAdmissible)
  }

  /** `','.join(texts)`. */
  function JoinWithCommas(texts: seq<string>): string
  {
    if texts == [] then ""
    else if |texts| == 1 then texts[0]
    else JoinWithCommas(texts[..|texts| - 1]) + "," + texts[|texts| - 1]
  }

  /** The key text of a permutation group: its generators, all whitespace removed. */
  function PermGroupText(b: Backend, g: Group): (s: string)
    ensures forall i :: 0 <= i < |s| ==> !IsPySpace(s[i])
  {
    RemoveWhitespace("Group(" + b.generatorsText(g) + ")")
  }

  /** The key text of another group: an isomorphic permutation group, blanks and newlines removed. */
  function ConvertedGroupText(b: Backend, g: Group): (s: string)
    ensures forall i :: 0 <= i < |s| ==> s[i] != ' ' && s[i] != '\n'
  {
    RemoveBlanksAndNewlines("Group([" + JoinWithCommas(b.permGeneratorTexts(g)) + "])")
  }

  /**
   * `create_group_key`. A non-empty `definition` is the key verbatim; then a
   * SmallGroups address, given or found by the backend; otherwise a
   * permutation-group expression.
   */
  function CreateGroupKey(args: GroupArgs, groupId: Option<(int, int)>, definition: string, b: Backend)
    : (r: Result<GroupKey>)
    requires !args.Arity?
    ensures definition != "" ==> r == Ok(Definition(definition))
    ensures r.Err? <==> definition == "" && args.OneGroup? && groupId.None? && args.g.Foreign?
    ensures r.Err? ==> r.error == NotAGapGroup
    ensures r.Ok? && r.value.Definition? ==> r.value.text == definition && definition != ""
    ensures r.Ok? && r.value.SmallId? && args.Address? && definition == "" ==>
      r.value == SmallId(args.q, args.n)
    ensures r.Ok? && r.value.SmallId? && args.OneGroup? && groupId.None? ==>
      var g := args.g.group;
      b.idGroup(g) == Some((r.value.order, r.value.index))
      && b.canonicallyIsomorphic(g, b.smallGroup(r.value.order, r.value.index))
    // the precedence of the branches, each with the exact key
    ensures definition == "" && args.OneGroup? && groupId.Some? ==>
      r == Ok(SmallId(groupId.value.0, groupId.value.1))
    ensures definition == "" && args.OneGroup? && groupId.None? && args.g.Gap? ==>
      var g := args.g.group;
      var id := b.idGroup(g);
      if id.Some? && b.canonicallyIsomorphic(g, b.smallGroup(id.value.0, id.value.1)) then
        r == Ok(SmallId(id.value.0, id.value.1))
      else if b.isPermGroup(g) then r == Ok(PermGroup(PermGroupText(b, g)))
      else r == Ok(PermGroup(ConvertedGroupText(b, g)))
    ensures r.Ok? && r.value.PermGroup? ==>
      args.OneGroup? && groupId.None?
      && (forall i :: 0 <= i < |r.value.text| ==> r.value.text[i] != ' ' && r.value.text[i] != '\n')
      && (b.isPermGroup(args.g.group) ==> forall i :: 0 <= i < |r.value.text| ==> !IsPySpace(r.value.text[i]))
  {
    if definition != "" then Ok(Definition(definition))
    else match args
      case Address(q, n) => Ok(SmallId(q, n))
      case OneGroup(obj) =>
        if groupId.Some? then Ok(SmallId(groupId.value.0, groupId.value.1))
        else match obj
          case Foreign => Err(NotAGapGroup)
          case Gap(g) =>
            var id := b.idGroup(g);
            if id.Some? && b.canonicallyIsomorphic(g, b.smallGroup(id.value.0, id.value.1)) then
              Ok(SmallId(id.value.0, id.value.1))
            else if b.isPermGroup(g) then Ok(PermGroup(PermGroupText(b, g)))
            else Ok(PermGroup(ConvertedGroupText(b, g)))
  }

  /**
   * A key made for a permutation group is already free of whitespace, so
   * the normalisation applied to freshly built rings leaves it alone.
   */
  lemma PermGroupKeyNormalised(args: GroupArgs, groupId: Option<(int, int)>, definition: string, b: Backend)
    requires !args.Arity?
    requires CreateGroupKey(args, groupId, definition, b).Ok?
    requires CreateGroupKey(args, groupId, definition, b).value.PermGroup?
    requires b.isPermGroup(args.g.group)
    ensures var t := CreateGroupKey(args, groupId, definition, b).value.text;
      RemoveWhitespace(t) == t
  {
  }

  /** The name the backend knows the argument by, if any (`G[0].HasName()`). */
  function GapName(args: GroupArgs, b: Backend): Option<string>
  {
    match args
    case OneGroup(Gap(g)) => b.name(g)
    case _ => None
  }

  /** `"%dgp%d" % (q, n)`. */
  function SmallGroupStem(q: int, n: int): string
  {
    IntToString(q) + "gp" + IntToString(n)
  }

  predicate IsFileNameChar(c: char)
  {
    IsStemChar(c) || c == '_' || c == '-'
  }

  /** A SmallGroups stem is made of digits, a sign and the letters "gp". */
  lemma SmallGroupStemIsFileName(q: int, n: int)
    ensures forall i :: 0 <= i < |SmallGroupStem(q, n)| ==> IsFileNameChar(SmallGroupStem(q, n)[i])
  {
    var a, c := IntToString(q), IntToString(n);
    var s := SmallGroupStem(q, n);
    assert s == a + "gp" + c;
    forall i | 0 <= i < |s|
      ensures IsFileNameChar(s[i])
    {
      if i < |a| {
        assert s[i] == a[i];
      } else if i >= |a| + 2 {
        assert s[i] == c[i - |a| - 2];
      }
    }
  }

  /**
   * `gstem`: an explicit stem (sanitised), a SmallGroups address, a given
   * `GroupId`, a group name (sanitised), or the backend's name (sanitised);
   * otherwise no stem can be inferred.
   */
  function Gstem(args: GroupArgs, stem: string, groupName: string, groupId: Option<(int, int)>, b: Backend)
    : (r: Result<string>)
    ensures stem == "" && args.Address? ==> r == Ok(SmallGroupStem(args.q, args.n))
    ensures stem == "" && !args.Address? && groupId.Some? ==> r == Ok(SmallGroupStem(groupId.value.0, groupId.value.1))
    ensures r.Ok? ==> forall i :: 0 <= i < |r.value| ==> IsFileNameChar(r.value[i])
    ensures r.Err? <==> stem == "" && !args.Address? && groupId.None? && groupName == "" && GapName(args, b).None?
    ensures r.Err? ==> r.error == NoStem
    ensures stem != "" ==> r == Ok(Sanitise(stem))
    ensures stem == "" && !args.Address? && groupId.None? && groupName != "" ==> r == Ok(Sanitise(groupName))
    ensures stem == "" && !args.Address? && groupId.None? && groupName == "" && GapName(args, b).Some? ==>
      r == Ok(Sanitise(GapName(args, b).value))
  {
    if stem != "" then Ok(Sanitise(stem))
    else if args.Address? then
      SmallGroupStemIsFileName(args.q, args.n);
      Ok(SmallGroupStem(args.q, args.n))
    else if groupId.Some? then
      SmallGroupStemIsFileName(groupId.value.0, groupId.value.1);
      Ok(SmallGroupStem(groupId.value.0, groupId.value.1))
    else if groupName != "" then Ok(Sanitise(groupName))
    else match GapName(args, b)
      case Some(name) => Ok(Sanitise(name))
      case None => Err(NoStem)
  }

  /** Reads "<q>gp<n>" back into the address it was made from. */
  function ParseSmallGroupStem(s: string): Option<(nat, nat)>
  {
    if exists i :: 0 <= i < |s| && s[i] == 'g' then
      var i := FirstIndexOf(s, 'g');
      if i + 1 < |s| && s[i + 1] == 'p' && i > 0 && i + 2 < |s|
        && (forall j :: 0 <= j < i ==> IsDigit(s[j]))
        && (forall j :: i + 2 <= j < |s| ==> IsDigit(s[j]))
      then Some((DigitsValue(s[..i]), DigitsValue(s[i + 2..])))
      else None
    else None
  }

  function FirstIndexOf(s: string, c: char): (i: nat)
    requires exists i :: 0 <= i < |s| && s[i] == c
    ensures i < |s| && s[i] == c
    ensures forall j :: 0 <= j < i ==> s[j] != c
  {
    if s[0] == c then 0 else 1 + FirstIndexOf(s[1..], c)
  }

  /** Two digit strings joined by "gp" parse back into their values. */
  lemma ParseJoinedDigits(a: string, c: string)
    requires |a| >= 1 && forall j :: 0 <= j < |a| ==> IsDigit(a[j])
    requires |c| >= 1 && forall j :: 0 <= j < |c| ==> IsDigit(c[j])
    ensures ParseSmallGroupStem(a + "gp" + c) == Some((DigitsValue(a), DigitsValue(c)))
  {
    var s := a + "gp" + c;
    assert s[|a|] == 'g' && s[|a| + 1] == 'p';
    forall j | 0 <= j < |a|
      ensures s[j] == a[j] && s[j] != 'g'
    {
    }
    var i := FirstIndexOf(s, 'g');
    assert i == |a|;
    assert s[..i] == a;
    assert s[i + 2..] == c;
    forall j | i + 2 <= j < |s|
      ensures IsDigit(s[j])
    {
      assert s[j] == c[j - i - 2];
    }
  }

  /** The stem of a SmallGroups address determines the address. */
  lemma SmallGroupStemRoundTrip(q: nat, n: nat)
    ensures ParseSmallGroupStem(SmallGroupStem(q, n)) == Some((q, n))
  {
    ParseJoinedDigits(NatToString(q), NatToString(n));
    NatToStringRoundTrip(q);
    NatToStringRoundTrip(n);
  }

  /**
   * The checked arguments and the key agree: for a SmallGroups address or
   * a given `GroupId`, the key is that address and its order is the order
   * the check returned.
   */
  lemma CheckedAddressIsKey(args: GroupArgs, minimalGenerators: bool, groupId: Option<(int, int)>, b: Backend)
    requires WellFormedArity(args) && !args.Arity?
    requires CheckArguments(args, minimalGenerators, groupId, b).Ok?
    requires args.Address? || groupId.Some?
    ensures var key := CreateGroupKey(args, groupId, "", b);
      key.Ok? && key.value.SmallId?
      && key.value.order == CheckArguments(args, minimalGenerators, groupId, b).value.0
      && (groupId.Some? ==> key.value == SmallId(groupId.value.0, groupId.value.1))
  {
  }

  /**
   * For a SmallGroups key the inferred stem reads back into the key's
   * address: the stem and the key name the same group.
   */
  lemma StemNamesSmallIdKey(args: GroupArgs, groupName: string, groupId: Option<(int, int)>, b: Backend)
    requires !args.Arity?
    requires args.Address? ==> args.q >= 0 && args.n >= 0
    requires !args.Address? ==> groupId.Some? && groupId.value.0 >= 0 && groupId.value.1 >= 0
    ensures var key := CreateGroupKey(args, groupId, "", b);
      var stem := Gstem(args, "", groupName, groupId, b);
      key.Ok? && key.value.SmallId? && stem.Ok?
      && ParseSmallGroupStem(stem.value) == Some((key.value.order, key.value.index))
  {
    var key := CreateGroupKey(args, groupId, "", b).value;
    SmallGroupStemRoundTrip(key.order, key.index);
  }

  /** Without an address, `GroupId` or `GStem`, the stem is the sanitised display name. */
  lemma StemFollowsName(args: GroupArgs, groupName: string, b: Backend)
    requires !args.Address? && GroupName(args, groupName, b).Some?
    ensures Gstem(args, "", groupName, None, b) == Ok(Sanitise(GroupName(args, groupName, b).value))
  {
  }

  /**
   * `group_name`: a given name, nothing for a SmallGroups address, else the
   * backend's name for the group if it has one.
   */
  function GroupName(args: GroupArgs, groupName: string, b: Backend): (r: Option<string>)
    ensures groupName != "" ==> r == Some(groupName)
    ensures groupName == "" && args.Address? ==> r == None
    ensures r.Some? ==> r.value == groupName || r == GapName(args, b)
    ensures groupName == "" && !args.Address? ==> r == GapName(args, b)
    ensures args.OneGroup? && args.g.Gap? && groupName == "" ==> r == b.name(args.g.group)
  {
    if groupName != "" then Some(groupName)
    else if args.Address? then None
    else GapName(args, b)
  }
}
