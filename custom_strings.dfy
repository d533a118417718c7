/**
 * The Hiero custom-keyword resolver hook: `Execute` translates one of three
 * template keywords into a string for an export task.
 *
 * The host task object is abstracted as plain data (`Task`): the sequence
 * format's width and height and the preset's optional "reformat" entry.
 * The production database's answer to the project query made for
 * `{client}` is passed in as `lookup`; the query itself is not modelled.
 */
module CustomStrings {
  import opened Decimal

  datatype Option<T> = None | Some(value: T)

  datatype Result<T, E> = Ok(value: T) | Err(error: E)

  /** The three keyword literals the hook knows. */
  const ResolutionTokenName: string := "{resolution}"
  const TypeTokenName: string := "{stype}"
  const ClientTokenName: string := "{client}"

  /** The literal `to_type` value that switches a reformat entry off. */
  const NoReformat: string := "None"

  /** The project field read for `{client}`. */
  const ClientField: string := "sg_client"

  /** The preset's "reformat" property: target type and dimensions. */
  datatype Reformat = Reformat(toType: string, width: nat, height: nat)

  /** What the resolver reads of a host export task. */
  datatype Task = Task(sequenceWidth: nat, sequenceHeight: nat, reformat: Option<Reformat>)

  /** A record returned by the production database: field name to value. */
  type ProjectRecord = map<string, string>

  datatype Error =
    | UnsupportedToken(keyword: string) // the RuntimeError for any other keyword
    | UndefinedResult                   // `{stype}` returns a name it never bound
    | ProjectNotFound                   // the project query returned nothing
    | FieldMissing(field: string)       // the project record lacks the field

  predicate IsToken(keyword: string) {
    keyword == ResolutionTokenName || keyword == TypeTokenName || keyword == ClientTokenName
  }

  // ---------------------------------------------------------------------
  // {resolution}

  /** True when the preset's reformat entry replaces the sequence format. */
  predicate OverrideApplies(task: Task) {
    task.reformat.Some? && task.reformat.value.toType != NoReformat
  }

  /**
   * The width and height the resolution string reports: the sequence
   * format's, unless an active reformat entry replaces them. Both come
   * from the same source; one is never taken without the other.
   */
  function Dimensions(task: Task): (d: (nat, nat))
    ensures d == (task.sequenceWidth, task.sequenceHeight)
         || (task.reformat.Some? && d == (task.reformat.value.width, task.reformat.value.height))
    ensures OverrideApplies(task) ==> d == (task.reformat.value.width, task.reformat.value.height)
    ensures !OverrideApplies(task) ==> d == (task.sequenceWidth, task.sequenceHeight)
  {
    if OverrideApplies(task) then
      (task.reformat.value.width, task.reformat.value.height)
    else
      (task.sequenceWidth, task.sequenceHeight)
  }

  /**
   * `"%sx%s" % (width, height)`: the width's digits, one 'x', the height's
   * digits, and nothing else.
   */
  function FormatResolution(width: nat, height: nat): (r: string)
    ensures |r| == |NatToString(width)| + 1 + |NatToString(height)|
    ensures r[|NatToString(width)|] == 'x'
    ensures r[..|NatToString(width)|] == NatToString(width)
    ensures r[|NatToString(width)| + 1..] == NatToString(height)
    ensures forall i :: 0 <= i < |r| && i != |NatToString(width)| ==> IsDigit(r[i])
  {
    NatToString(width) + "x" + NatToString(height)
  }

  /** Index of the first 'x' in `s`, or `|s|` when there is none. */
  function FindX(s: string): (i: nat)
    ensures i <= |s|
    ensures i < |s| ==> s[i] == 'x'
    ensures forall j :: 0 <= j < i ==> s[j] != 'x'
  {
    if s == [] then 0 else if s[0] == 'x' then 0 else 1 + FindX(s[1..])
  }

  /**
   * Reads a resolution string back: two canonical decimal numerals around
   * a single 'x'. The reference against which `FormatResolution` is checked.
   */
  function ParseResolution(s: string): Option<(nat, nat)> {
    var i := FindX(s);
    if i < |s| && Canonical(s[..i]) && Canonical(s[i + 1..]) then
      Some((ParseDigits(s[..i]), ParseDigits(s[i + 1..])))
    else
      None
  }

  /** The parts of a formatted resolution string. */
  lemma FormatResolutionParts(width: nat, height: nat)
    ensures var r := FormatResolution(width, height);
            var k := |NatToString(width)|;
            FindX(r) == k && r[..k] == NatToString(width) && r[k + 1..] == NatToString(height)
  {
  }

  /** A resolution string is the formatting of the pair it parses to, and only of it. */
  lemma ResolutionFormatIff(s: string, width: nat, height: nat)
    ensures ParseResolution(s) == Some((width, height)) <==> s == FormatResolution(width, height)
  {
    if s == FormatResolution(width, height) {
      FormatResolutionParts(width, height);
      var k := |NatToString(width)|;
      ParseNatToString(width);
      ParseNatToString(height);
      assert s[..k] == NatToString(width);
    }
    if ParseResolution(s) == Some((width, height)) {
      var i := FindX(s);
      NatToStringParse(s[..i]);
      NatToStringParse(s[i + 1..]);
      assert s == s[..i] + "x" + s[i + 1..];
    }
  }

  /** The `{resolution}` value of a task: its effective dimensions, formatted. */
  function ClipResolution(task: Task): (r: string)
    ensures ParseResolution(r) == Some(Dimensions(task))
  {
    var d := Dimensions(task);
    ResolutionFormatIff(FormatResolution(d.0, d.1), d.0, d.1);
    FormatResolution(d.0, d.1)
  }

  /** Without a "reformat" entry the sequence width, "x" and the sequence height. */
  lemma NoReformatUsesSequence(task: Task)
    requires task.reformat.None?
    ensures ClipResolution(task) == NatToString(task.sequenceWidth) + "x" + NatToString(task.sequenceHeight)
  {
  }

  /**
   * An active reformat entry decides the result alone: the sequence format
   * may be anything.
   */
  lemma ReformatOverrides(task: Task, otherWidth: nat, otherHeight: nat)
    requires OverrideApplies(task)
    ensures ClipResolution(task)
         == NatToString(task.reformat.value.width) + "x" + NatToString(task.reformat.value.height)
    ensures ClipResolution(task.(sequenceWidth := otherWidth, sequenceHeight := otherHeight))
         == ClipResolution(task)
  {
  }

  /**
   * A reformat entry whose `to_type` is "None" is ignored: the sequence
   * format is used, whatever dimensions the entry holds.
   */
  lemma NoneReformatIgnored(task: Task, otherWidth: nat, otherHeight: nat)
    requires task.reformat.Some? && task.reformat.value.toType == NoReformat
    ensures ClipResolution(task) == NatToString(task.sequenceWidth) + "x" + NatToString(task.sequenceHeight)
    ensures ClipResolution(task.(reformat := Some(task.reformat.value.(width := otherWidth, height := otherHeight))))
         == ClipResolution(task)
  {
  }

  /** The resolution text tells apart tasks with different effective dimensions. */
  lemma ClipResolutionDetermined(t1: Task, t2: Task)
    ensures ClipResolution(t1) == ClipResolution(t2) <==> Dimensions(t1) == Dimensions(t2)
  {
  }

  /** The decimal texts the worked examples below use. */
  lemma ExampleNumerals()
    ensures NatToString(1920) == "1920" && NatToString(1080) == "1080"
    ensures NatToString(1280) == "1280" && NatToString(720) == "720"
  {
    assert NatToString(19) == "19" && NatToString(192) == "192";
    assert NatToString(10) == "10" && NatToString(108) == "108";
    assert NatToString(12) == "12" && NatToString(128) == "128";
    assert NatToString(72) == "72";
  }

  /** The worked example without a reformat entry: 1920 by 1080 gives "1920x1080". */
  lemma SequenceExample(task: Task)
    requires task.sequenceWidth == 1920 && task.sequenceHeight == 1080 && task.reformat.None?
    ensures ClipResolution(task) == "1920x1080"
  {
    ExampleNumerals();
    NoReformatUsesSequence(task);
  }

  /** The worked example with an active reformat entry of 1280 by 720. */
  lemma ReformatExample(task: Task)
    requires task.sequenceWidth == 1920 && task.sequenceHeight == 1080
    requires task.reformat == Some(Reformat("to_box", 1280, 720))
    ensures ClipResolution(task) == "1280x720"
  {
    ExampleNumerals();
    assert "to_box"[0] != NoReformat[0];
    ReformatOverrides(task, 1920, 1080);
  }

  // ---------------------------------------------------------------------
  // {client}

  /** The `sg_client` field of the project record the database returned. */
  function ClientName(lookup: Option<ProjectRecord>): (r: Result<string, Error>)
    ensures r.Ok? <==> lookup.Some? && ClientField in lookup.value
    ensures r.Ok? ==> r.value == lookup.value[ClientField]
    ensures lookup.None? ==> r == Err(ProjectNotFound)
    ensures lookup.Some? && ClientField !in lookup.value ==> r == Err(FieldMissing(ClientField))
  {
    match lookup
    case None => Err(ProjectNotFound)
    case Some(record) =>
      if ClientField in record then Ok(record[ClientField]) else Err(FieldMissing(ClientField))
  }

  // ---------------------------------------------------------------------
  // The hook's entry point

  /**
   * Resolves `keyword` for `task`. `lookup` is what the project query of
   * the `{client}` branch returns; the other branches ignore it.
   */
  function Execute(task: Task, keyword: string, lookup: Option<ProjectRecord>): (r: Result<string, Error>)
    ensures r.Err? && r.error.UnsupportedToken? <==> !IsToken(keyword)
    ensures !IsToken(keyword) ==> r == Err(UnsupportedToken(keyword))
    ensures keyword == ResolutionTokenName ==> r.Ok? && ParseResolution(r.value) == Some(Dimensions(task))
    ensures keyword == TypeTokenName ==> r == Err(UndefinedResult)
    ensures keyword == ClientTokenName ==> r == ClientName(lookup)
  {
    if keyword == ResolutionTokenName then
      Ok(ClipResolution(task))
    else if keyword == TypeTokenName then
      Err(UndefinedResult)
    else if keyword == ClientTokenName then
      ClientName(lookup)
    else
      Err(UnsupportedToken(keyword))
  }

  /** The three literals are pairwise distinct, so a keyword selects at most one branch. */
  lemma TokensDistinct()
    ensures ResolutionTokenName != TypeTokenName
    ensures ResolutionTokenName != ClientTokenName
    ensures TypeTokenName != ClientTokenName
  {
  }

  /** `{resolution}` yields exactly the resolution rule's value, whatever the lookup. */
  lemma ExecuteResolution(task: Task, lookup: Option<ProjectRecord>)
    ensures Execute(task, ResolutionTokenName, lookup) == Ok(ClipResolution(task))
  {
  }

  /**
   * `{client}` succeeds exactly when a project with an `sg_client` field was
   * found. A corollary of `Execute`'s contract and `ClientName`'s, stated at
   * the entry point.
   */
  lemma ExecuteClient(task: Task, lookup: Option<ProjectRecord>)
    ensures Execute(task, ClientTokenName, lookup).Ok?
        <==> lookup.Some? && ClientField in lookup.value
    ensures Execute(task, ClientTokenName, lookup).Ok?
        ==> Execute(task, ClientTokenName, lookup).value == lookup.value[ClientField]
    ensures lookup.None? ==> Execute(task, ClientTokenName, lookup) == Err(ProjectNotFound)
  {
  }
}
