/**
 Dropping and renaming columns, twice: the dataframe handlers, and the projection that
 the native engines compile from the same operation. `ProjectionRefinesHandler` proves
 that they accept the same requests and build the same frame.
 */
module Projection {
  import opened Prelude

  type Name = string

  /** A frame is an ordered list of named columns. */
  datatype Column<Cells> = Column(name: Name, cells: Cells)

  type Frame<Cells> = seq<Column<Cells>>

  datatype Operation =
    | DropColumns(columns: seq<Name>)
    | RenameColumns(mapping: map<Name, Name>)

  datatype Refusal = InvalidParameters | DuplicateInput | UnknownColumns | DuplicateTargets | EmptyResult

  datatype Pair = Pair(source: Name, target: Name)

  // ---------------------------------------------------------------- request schema

  predicate IsBlank(c: char) {
    c == ' ' || '\t' <= c <= '\r' || '\U{001C}' <= c <= '\U{001F}' || c == '\U{0085}' || c == '\U{00A0}'
        || c == '\U{1680}'
    || '\U{2000}' <= c <= '\U{200A}' || c == '\U{2028}' || c == '\U{2029}' || c == '\U{202F}' || c == '\U{205F}'
        || c == '\U{3000}'
  }

  /** `ColumnName`: some character that `str.strip` keeps, no NUL, a bounded length. */
  predicate ValidName(name: Name, maxChars: nat) {
    (exists i | 0 <= i < |name| :: !IsBlank(name[i])) && '\0' !in name && |name| <= maxChars
  }

  predicate DistinctNames(names: seq<Name>) {
    forall i, j | 0 <= i < j < |names| :: names[i] != names[j]
  }

  /** The parameter models: valid names, distinct columns, distinct targets. */
  predicate ValidParameters(operation: Operation, maxChars: nat) {
    match operation
    case DropColumns(columns) => DistinctNames(columns) && forall i | 0 <= i < |columns| ::
        ValidName(columns[i], maxChars)
    case RenameColumns(mapping) =>
      && (forall source | source in mapping :: ValidName(source, maxChars) && ValidName(mapping[source], maxChars))
      && (forall a, b | a in mapping && b in mapping && a != b :: mapping[a] != mapping[b])
  }

  function Renamed(mapping: map<Name, Name>, name: Name): Name {
    if name in mapping then mapping[name] else name
  }

  function NamesOf<Cells>(frame: Frame<Cells>): (names: seq<Name>)
    ensures |names| == |frame| && forall i | 0 <= i < |frame| :: names[i] == frame[i].name
  {
    if frame == [] then [] else [frame[0].name] + NamesOf(frame[1..])
  }

  predicate AllKnown(names: set<Name>, columns: seq<Name>) {
    forall name | name in names :: name in columns
  }

  function RequestedNames(operation: Operation): set<Name> {
    match operation
    case DropColumns(columns) => set i | 0 <= i < |columns| :: columns[i]
    case RenameColumns(mapping) => mapping.Keys
  }

  // ---------------------------------------------------------------- dataframe handlers

  /** `frame.drop(columns=...)`: every column of such a name disappears. */
  function DropFrom<Cells>(frame: Frame<Cells>, columns: seq<Name>): Frame<Cells> {
    if frame == [] then []
    else (if frame[0].name in columns then [] else [frame[0]]) + DropFrom(frame[1..], columns)
  }

  /** `frame.rename(columns=...)`. */
  function RenameIn<Cells>(frame: Frame<Cells>, mapping: map<Name, Name>): Frame<Cells> {
    if frame == [] then []
    else [frame[0].(name := Renamed(mapping, frame[0].name))] + RenameIn(frame[1..], mapping)
  }

  function Handle<Cells>(frame: Frame<Cells>, operation: Operation): Result<Frame<Cells>, Refusal> {
    if !AllKnown(RequestedNames(operation), NamesOf(frame)) then Err(UnknownColumns)
    else match operation
      case DropColumns(columns) => Ok(DropFrom(frame, columns))
      case RenameColumns(mapping) =>
        if DistinctNames(NamesOf(RenameIn(frame, mapping))) then Ok(RenameIn(frame, mapping)) else Err(DuplicateTargets)
  }

  /** `execute_operation`. */
  function Execute<Cells>(frame: Frame<Cells>, operation: Operation, maxChars: nat): Result<Frame<Cells>, Refusal> {
    if !ValidParameters(operation, maxChars) then Err(InvalidParameters)
    else match Handle(frame, operation)
      case Err(e) => Err(e)
      case Ok(result) => if result == [] then Err(EmptyResult) else Ok(result)
  }

  // ---------------------------------------------------------------- compiled projection

  function DropPairs(columns: seq<Name>, dropped: seq<Name>): seq<Pair> {
    if columns == [] then []
    else (if columns[0] in dropped then [] else [Pair(columns[0], columns[0])]) + DropPairs(columns[1..], dropped)
  }

  function RenamePairs(columns: seq<Name>, mapping: map<Name, Name>): seq<Pair> {
    if columns == [] then []
    else [Pair(columns[0], Renamed(mapping, columns[0]))] + RenamePairs(columns[1..], mapping)
  }

  function Targets(pairs: seq<Pair>): (names: seq<Name>)
    ensures |names| == |pairs| && forall i | 0 <= i < |pairs| :: names[i] == pairs[i].target
  {
    if pairs == [] then [] else [pairs[0].target] + Targets(pairs[1..])
  }

  /** The projection handlers; the rename handler also refuses targets with a NUL. */
  function Compile(columns: seq<Name>, operation: Operation): Result<seq<Pair>, Refusal> {
    match operation
    case DropColumns(dropped) =>
      if !AllKnown(RequestedNames(operation), columns) then Err(UnknownColumns) else Ok(DropPairs(columns, dropped))
    case RenameColumns(mapping) =>
      if exists source | source in mapping :: '\0' in mapping[source] then Err(InvalidParameters)
      else if !AllKnown(RequestedNames(operation), columns) then Err(UnknownColumns)
      else if DistinctNames(Targets(RenamePairs(columns, mapping))) then Ok(RenamePairs(columns, mapping))
      else Err(DuplicateTargets)
  }

  /** Request validation followed by `TransformationPlan.projection`. */
  function Plan(columns: seq<Name>, operation: Operation, maxChars: nat): Result<seq<Pair>, Refusal> {
    if !ValidParameters(operation, maxChars) then Err(InvalidParameters)
    else if !DistinctNames(columns) then Err(DuplicateInput)
    else match Compile(columns, operation)
      case Err(e) => Err(e)
      case Ok(pairs) => if pairs == [] then Err(EmptyResult) else Ok(pairs)
  }

  function CellsOf<Cells>(frame: Frame<Cells>, name: Name): Option<Cells> {
    if frame == [] then None else if frame[0].name == name then Some(frame[0].cells) else CellsOf(frame[1..], name)
  }

  /** What an engine builds from a projection: one column for each pair, found by its source name. */
  function Select<Cells>(frame: Frame<Cells>, pairs: seq<Pair>): Option<Frame<Cells>> {
    if pairs == [] then Some([])
    else
      var cells, rest := CellsOf(frame, pairs[0].source), Select(frame, pairs[1..]);
      if cells.None? || rest.None? then None else Some([Column(pairs[0].target, cells.value)] + rest.value)
  }

  // ---------------------------------------------------------------- the two agree

  lemma {:induction false} CellsAt<Cells>(frame: Frame<Cells>, i: nat)
    requires DistinctNames(NamesOf(frame)) && i < |frame|
    ensures CellsOf(frame, frame[i].name) == Some(frame[i].cells)
  {
    if i > 0 {
      assert NamesOf(frame)[0] != NamesOf(frame)[i];
      assert DistinctNames(NamesOf(frame[1..])) by {
        forall a, b | 0 <= a < b < |frame| - 1 ensures NamesOf(frame[1..])[a] != NamesOf(frame[1..])[b] {
          assert NamesOf(frame)[a + 1] != NamesOf(frame)[b + 1];
        }
      }
      CellsAt(frame[1..], i - 1);
    }
  }

  lemma {:induction false} SelectDrop<Cells>(frame: Frame<Cells>, i: nat, columns: seq<Name>)
    requires DistinctNames(NamesOf(frame)) && i <= |frame|
    ensures Select(frame, DropPairs(NamesOf(frame)[i..], columns)) == Some(DropFrom(frame[i..], columns))
    decreases |frame| - i
  {
    if i < |frame| {
      SelectDrop(frame, i + 1, columns);
      CellsAt(frame, i);
      assert NamesOf(frame)[i..][1..] == NamesOf(frame)[i + 1..] && frame[i..][1..] == frame[i + 1..];
      var rest := DropPairs(NamesOf(frame)[i + 1..], columns);
      if frame[i].name in columns {
        assert [] + rest == rest && [] + DropFrom(frame[i + 1..], columns) == DropFrom(frame[i + 1..], columns);
      } else {
        assert ([Pair(frame[i].name, frame[i].name)] + rest)[1..] == rest;
      }
    }
  }

  lemma {:induction false} SelectRename<Cells>(frame: Frame<Cells>, i: nat, mapping: map<Name, Name>)
    requires DistinctNames(NamesOf(frame)) && i <= |frame|
    ensures Select(frame, RenamePairs(NamesOf(frame)[i..], mapping)) == Some(RenameIn(frame[i..], mapping))
    ensures Targets(RenamePairs(NamesOf(frame)[i..], mapping)) == NamesOf(RenameIn(frame[i..], mapping))
    decreases |frame| - i
  {
    if i < |frame| {
      SelectRename(frame, i + 1, mapping);
      CellsAt(frame, i);
      assert NamesOf(frame)[i..][1..] == NamesOf(frame)[i + 1..] && frame[i..][1..] == frame[i + 1..];
      var rest := RenamePairs(NamesOf(frame)[i + 1..], mapping);
      var pair := Pair(frame[i].name, Renamed(mapping, frame[i].name));
      assert RenamePairs(NamesOf(frame)[i..], mapping) == [pair] + rest && ([pair] + rest)[1..] == rest;
      assert RenameIn(frame[i..], mapping)[1..] == RenameIn(frame[i + 1..], mapping);
    }
  }

  /** Both accept and select the same columns and cells, or both refuse for the same reason. */
  ghost predicate Refines<Cells>(frame: Frame<Cells>, operation: Operation, maxChars: nat) {
    var direct, planned := Execute(frame, operation, maxChars), Plan(NamesOf(frame), operation, maxChars);
    if direct.Ok? then planned.Ok? && Select(frame, planned.value) == Some(direct.value)
    else planned == Err(direct.error)
  }

  /**
   On every frame with distinct column names, for every parameters whatever: both refuse
   for the same reason, or both accept and selecting the compiled pairs gives exactly
   the handler's columns, in order, with their cells.
   */
  lemma ProjectionRefinesHandler<Cells>(frame: Frame<Cells>, operation: Operation, maxChars: nat)
    requires DistinctNames(NamesOf(frame))
    ensures Refines(frame, operation, maxChars)
  {
    hide NamesOf, DropFrom, DropPairs, RenameIn, RenamePairs, Targets, DistinctNames, AllKnown, ValidParameters,
      RequestedNames, Select;
    match operation {
      case DropColumns(columns) => DroppedAlike(frame, columns);
      case RenameColumns(mapping) =>
        RenamedAlike(frame, mapping);
        if ValidParameters(operation, maxChars) { ValidTargetsHaveNoNul(mapping, maxChars); }
    }
  }

  lemma DroppedAlike<Cells>(frame: Frame<Cells>, columns: seq<Name>)
    requires DistinctNames(NamesOf(frame))
    ensures Select(frame, DropPairs(NamesOf(frame), columns)) == Some(DropFrom(frame, columns))
    ensures DropPairs(NamesOf(frame), columns) == [] <==> DropFrom(frame, columns) == []
  {
    assert NamesOf(frame)[0..] == NamesOf(frame) && frame[0..] == frame;
    SelectDrop(frame, 0, columns);
    DropsAlike(frame, columns);
  }

  lemma RenamedAlike<Cells>(frame: Frame<Cells>, mapping: map<Name, Name>)
    requires DistinctNames(NamesOf(frame))
    ensures Select(frame, RenamePairs(NamesOf(frame), mapping)) == Some(RenameIn(frame, mapping))
    ensures Targets(RenamePairs(NamesOf(frame), mapping)) == NamesOf(RenameIn(frame, mapping))
    ensures RenamePairs(NamesOf(frame), mapping) == [] <==> RenameIn(frame, mapping) == []
  {
    assert NamesOf(frame)[0..] == NamesOf(frame) && frame[0..] == frame;
    SelectRename(frame, 0, mapping);
    RenamesAlike(frame, mapping);
  }

  lemma ValidTargetsHaveNoNul(mapping: map<Name, Name>, maxChars: nat)
    requires ValidParameters(RenameColumns(mapping), maxChars)
    ensures forall source | source in mapping :: '\0' !in mapping[source]
  {
    forall source | source in mapping ensures '\0' !in mapping[source] {
      assert ValidName(mapping[source], maxChars);
    }
  }

  lemma {:induction false} DropsAlike<Cells>(frame: Frame<Cells>, columns: seq<Name>)
    ensures |DropPairs(NamesOf(frame), columns)| == |DropFrom(frame, columns)|
  {
    if frame != [] {
      assert NamesOf(frame)[1..] == NamesOf(frame[1..]);
      DropsAlike(frame[1..], columns);
    }
  }

  lemma {:induction false} RenamesAlike<Cells>(frame: Frame<Cells>, mapping: map<Name, Name>)
    ensures |RenamePairs(NamesOf(frame), mapping)| == |RenameIn(frame, mapping)| == |frame|
  {
    if frame != [] {
      assert NamesOf(frame)[1..] == NamesOf(frame[1..]);
      RenamesAlike(frame[1..], mapping);
    }
  }

  lemma {:induction false} RenamedAt<Cells>(frame: Frame<Cells>, mapping: map<Name, Name>, i: nat)
    requires i < |frame|
    ensures i < |RenameIn(frame, mapping)|
    ensures RenameIn(frame, mapping)[i] == frame[i].(name := Renamed(mapping, frame[i].name))
  {
    if i > 0 { RenamedAt(frame[1..], mapping, i - 1); }
  }

  /**
   A native engine is stricter on one input only: a frame whose column names repeat is
   refused before compilation, while the handlers never look for repeated input names.
   */
  lemma DuplicateInputIsRefused<Cells>(frame: Frame<Cells>, operation: Operation, maxChars: nat)
    requires ValidParameters(operation, maxChars)
    ensures Plan(NamesOf(frame), operation, maxChars) == Err(DuplicateInput) <==> !DistinctNames(NamesOf(frame))
  {
    if DistinctNames(NamesOf(frame)) { ProjectionRefinesHandler(frame, operation, maxChars); }
  }

  /**
   The exact condition: the compiled form and the handler agree if and only if no column
   name repeats, or the parameters are invalid and both refuse them.
   */
  lemma ProjectionRefinesIff<Cells>(frame: Frame<Cells>, operation: Operation, maxChars: nat)
    ensures Refines(frame, operation, maxChars)
            <==> DistinctNames(NamesOf(frame)) || !ValidParameters(operation, maxChars)
  {
    if DistinctNames(NamesOf(frame)) {
      ProjectionRefinesHandler(frame, operation, maxChars);
    } else if ValidParameters(operation, maxChars) {
      DuplicateInputIsRefused(frame, operation, maxChars);
      HandlersIgnoreRepeats(frame, operation, maxChars);
    }
  }

  /** No handler refuses a frame because its names repeat. */
  lemma HandlersIgnoreRepeats<Cells>(frame: Frame<Cells>, operation: Operation, maxChars: nat)
    ensures Execute(frame, operation, maxChars) != Err(DuplicateInput)
  {
  }

  // ---------------------------------------------------------------- what the handlers do, column by column

  /** How many of the first `i` columns a drop keeps. */
  function KeptBefore<Cells>(frame: Frame<Cells>, columns: seq<Name>, i: nat): nat
    requires i <= |frame|
  {
    |set k | 0 <= k < i && frame[k].name !in columns|
  }

  lemma KeptNext<Cells>(frame: Frame<Cells>, columns: seq<Name>, i: nat)
    requires i < |frame|
    ensures KeptBefore(frame, columns, i + 1) == KeptBefore(frame, columns, i)
        + if frame[i].name in columns then 0 else 1
  {
    var before, after := set k | 0 <= k < i && frame[k].name !in columns,
                         set k | 0 <= k < i + 1 && frame[k].name !in columns;
    assert after == before + if frame[i].name in columns then {} else {i};
  }

  lemma {:induction false} DropSnoc<Cells>(frame: Frame<Cells>, columns: seq<Name>, i: nat)
    requires i < |frame|
    ensures DropFrom(frame[..i + 1], columns)
            == DropFrom(frame[..i], columns) + if frame[i].name in columns then [] else [frame[i]]
  {
    if i == 0 {
      assert frame[..1][1..] == [] && frame[..0] == [];
    } else {
      DropSnoc(frame[1..], columns, i - 1);
      assert frame[..i + 1][1..] == frame[1..][..i] && frame[..i][1..] == frame[1..][..i - 1];
    }
  }

  /** Dropping keeps exactly the columns not named, in their order, with their cells. */
  lemma {:induction false} DropKeepsTheOthers<Cells>(frame: Frame<Cells>, columns: seq<Name>, n: nat)
    requires n <= |frame|
    ensures |DropFrom(frame[..n], columns)| == KeptBefore(frame, columns, n)
    ensures forall i | 0 <= i < n && frame[i].name !in columns ::
        && KeptBefore(frame, columns, i) < |DropFrom(frame[..n], columns)|
        && DropFrom(frame[..n], columns)[KeptBefore(frame, columns, i)] == frame[i]
  {
    hide KeptBefore;
    if n == 0 {
      assert KeptBefore(frame, columns, 0) == 0 by { NoneKeptYet(frame, columns); }
    } else {
      DropKeepsTheOthers(frame, columns, n - 1);
      DropSnoc(frame, columns, n - 1);
      KeptNext(frame, columns, n - 1);
    }
  }

  lemma NoneKeptYet<Cells>(frame: Frame<Cells>, columns: seq<Name>)
    ensures KeptBefore(frame, columns, 0) == 0
  {
  }

  /** Renaming keeps every column in its place with its cells, and gives it the mapped name if there is one. */
  lemma {:induction false} RenameKeepsPlaces<Cells>(frame: Frame<Cells>, mapping: map<Name, Name>, i: nat)
    requires i < |frame|
    ensures |RenameIn(frame, mapping)| == |frame| && RenameIn(frame, mapping)[i].cells == frame[i].cells
    ensures RenameIn(frame, mapping)[i].name
            == if frame[i].name in mapping then mapping[frame[i].name] else frame[i].name
  {
    if |frame| > 1 { RenameKeepsPlaces(frame[1..], mapping, if i == 0 then 0 else i - 1); }
  }

  /** A name with a character that is not blank and none that is NUL, of bounded length. */
  predicate Admissible(name: Name, maxChars: nat) {
    && |name| <= maxChars && (forall i | 0 <= i < |name| :: name[i] != '\0')
    && exists i | 0 <= i < |name| :: !IsBlank(name[i])
  }

  /**
   When a drop is refused, in the order of the checks: a bad or repeated name, a name
   that is no column, or nothing left. Otherwise it is carried out.
   */
  lemma DropIsRefusedIff<Cells>(frame: Frame<Cells>, columns: seq<Name>, maxChars: nat)
    ensures var r := Execute(frame, DropColumns(columns), maxChars);
            if (exists i | 0 <= i < |columns| :: !Admissible(columns[i], maxChars))
               || (exists i, j | 0 <= i < j < |columns| :: columns[i] == columns[j])
            then r == Err(InvalidParameters)
            else if exists i | 0 <= i < |columns| :: !IsColumn(frame, columns[i]) then r == Err(UnknownColumns)
            else if forall c | c in frame :: c.name in columns then r == Err(EmptyResult)
            else r == Ok(DropFrom(frame, columns))
  {
    forall name ensures Admissible(name, maxChars) <==> ValidName(name, maxChars) {}
    forall name ensures name in NamesOf(frame) <==> IsColumn(frame, name) { NameOfColumn(frame, name); }
    var requested := RequestedNames(DropColumns(columns));
    assert forall name :: name in requested <==> exists i | 0 <= i < |columns| :: columns[i] == name;
    assert AllKnown(requested, NamesOf(frame)) <==> forall i | 0 <= i < |columns| :: IsColumn(frame, columns[i]);
    hide ValidName, NamesOf, DropFrom, Admissible, RequestedNames, AllKnown, IsColumn;
    SomethingIsKept(frame, columns);
  }

  predicate IsColumn<Cells>(frame: Frame<Cells>, name: Name) {
    exists i | 0 <= i < |frame| :: frame[i].name == name
  }

  lemma SomethingIsKept<Cells>(frame: Frame<Cells>, columns: seq<Name>)
    ensures DropFrom(frame, columns) == [] <==> forall c | c in frame :: c.name in columns
  {
    if forall c | c in frame :: c.name in columns {
      AllDropped(frame, columns);
    } else {
      var c :| c in frame && c.name !in columns;
      var i :| 0 <= i < |frame| && frame[i] == c;
      assert frame[..|frame|] == frame;
      DropKeepsTheOthers(frame, columns, |frame|);
    }
  }

  lemma {:induction false} AllDropped<Cells>(frame: Frame<Cells>, columns: seq<Name>)
    requires forall c | c in frame :: c.name in columns
    ensures DropFrom(frame, columns) == []
  {
    if frame != [] {
      AllDropped(frame[1..], columns);
    }
  }

  lemma NameOfColumn<Cells>(frame: Frame<Cells>, name: Name)
    ensures name in NamesOf(frame) <==> IsColumn(frame, name)
  {
    if name in NamesOf(frame) {
      var i :| 0 <= i < |frame| && NamesOf(frame)[i] == name;
      assert frame[i].name == name;
    }
    forall i | 0 <= i < |frame| && frame[i].name == name ensures name in NamesOf(frame) {
      assert NamesOf(frame)[i] == name;
    }
  }

  /**
   When a renaming is refused: a bad name, two columns renamed to one name, a source that
   is no column, or a result in which a name repeats.
   */
  lemma RenameIsRefusedIff<Cells>(frame: Frame<Cells>, mapping: map<Name, Name>, maxChars: nat)
    ensures var r := Execute(frame, RenameColumns(mapping), maxChars);
            if (exists a | a in mapping :: !Admissible(a, maxChars) || !Admissible(mapping[a], maxChars))
               || (exists a, b | a in mapping && b in mapping :: a != b && mapping[a] == mapping[b])
            then r == Err(InvalidParameters)
            else if exists a | a in mapping :: !IsColumn(frame, a) then r == Err(UnknownColumns)
            else if NamesRepeat(frame, mapping) then r == Err(DuplicateTargets)
            else if frame == [] then r == Err(EmptyResult)
            else r == Ok(RenameIn(frame, mapping))
  {
    RenameParameters(mapping, maxChars);
    SourcesAreColumns(frame, mapping);
    RepeatedNames(frame, mapping);
    RenamedLength(frame, mapping);
    hide ValidParameters, NamesOf, Admissible, IsColumn, AllKnown, RenameIn, NamesRepeat, DistinctNames;
  }

  lemma RenameParameters(mapping: map<Name, Name>, maxChars: nat)
    ensures ValidParameters(RenameColumns(mapping), maxChars) <==>
            !((exists a | a in mapping :: !Admissible(a, maxChars) || !Admissible(mapping[a], maxChars))
              || (exists a, b | a in mapping && b in mapping :: a != b && mapping[a] == mapping[b]))
  {
    forall name ensures Admissible(name, maxChars) <==> ValidName(name, maxChars) {}
    hide ValidName, Admissible;
  }

  lemma SourcesAreColumns<Cells>(frame: Frame<Cells>, mapping: map<Name, Name>)
    ensures AllKnown(RequestedNames(RenameColumns(mapping)), NamesOf(frame)) <==>
            !(exists a | a in mapping :: !IsColumn(frame, a))
  {
    forall name ensures name in NamesOf(frame) <==> IsColumn(frame, name) { NameOfColumn(frame, name); }
    hide NamesOf, IsColumn;
  }

  /** Two columns would end up under one name. */
  predicate NamesRepeat<Cells>(frame: Frame<Cells>, mapping: map<Name, Name>) {
    exists i, j | 0 <= i < j < |frame| ::
      (if frame[i].name in mapping then mapping[frame[i].name] else frame[i].name)
      == (if frame[j].name in mapping then mapping[frame[j].name] else frame[j].name)
  }

  lemma RepeatedNames<Cells>(frame: Frame<Cells>, mapping: map<Name, Name>)
    ensures DistinctNames(NamesOf(RenameIn(frame, mapping))) <==> !NamesRepeat(frame, mapping)
  {
    forall i | 0 <= i < |frame|
      ensures |RenameIn(frame, mapping)| == |frame|
      ensures RenameIn(frame, mapping)[i].name
              == if frame[i].name in mapping then mapping[frame[i].name] else frame[i].name {
      RenameKeepsPlaces(frame, mapping, i);
    }
    RenamedLength(frame, mapping);
    hide RenameIn;
  }

  lemma {:induction false} RenamedLength<Cells>(frame: Frame<Cells>, mapping: map<Name, Name>)
    ensures |RenameIn(frame, mapping)| == |frame|
  {
    if frame != [] { RenamedLength(frame[1..], mapping); }
  }

  // ---------------------------------------------------------------- renaming is reversible

  /** The mapping read from targets back to sources. */
  predicate IsInverse(mapping: map<Name, Name>, inverse: map<Name, Name>) {
    && inverse.Keys == mapping.Values
    && forall source | source in mapping :: mapping[source] in inverse && inverse[mapping[source]] == source
  }

  /** A column that was not renamed did not take the name of one that was. */
  lemma UnrenamedIsNoTarget<Cells>(frame: Frame<Cells>, mapping: map<Name, Name>, i: nat, source: Name)
    requires i < |frame| && frame[i].name !in mapping && source in mapping
    requires source in NamesOf(frame) && DistinctNames(NamesOf(RenameIn(frame, mapping)))
    ensures mapping[source] != frame[i].name
  {
    var j :| 0 <= j < |frame| && NamesOf(frame)[j] == source;
    RenamedAt(frame, mapping, i);
    RenamedAt(frame, mapping, j);
    RenamesAlike(frame, mapping);
    var after := NamesOf(RenameIn(frame, mapping));
    hide RenameIn, NamesOf;
    assert after[i] == frame[i].name && after[j] == mapping[source];
    assert if i < j then after[i] != after[j] else i > j ==> after[j] != after[i];
  }

  lemma NameRestored<Cells>(frame: Frame<Cells>, mapping: map<Name, Name>, inverse: map<Name, Name>, i: nat)
    requires i < |frame| && IsInverse(mapping, inverse)
    requires AllKnown(mapping.Keys, NamesOf(frame)) && DistinctNames(NamesOf(RenameIn(frame, mapping)))
    ensures Renamed(inverse, Renamed(mapping, frame[i].name)) == frame[i].name
  {
    hide RenameIn, NamesOf, DistinctNames;
    var name := frame[i].name;
    if name !in mapping {
      forall source | source in mapping ensures mapping[source] != name {
        UnrenamedIsNoTarget(frame, mapping, i, source);
      }
      assert name !in mapping.Values;
    }
  }

  lemma FrameRestored<Cells>(frame: Frame<Cells>, mapping: map<Name, Name>, inverse: map<Name, Name>)
    requires IsInverse(mapping, inverse)
    requires AllKnown(mapping.Keys, NamesOf(frame)) && DistinctNames(NamesOf(RenameIn(frame, mapping)))
    ensures RenameIn(RenameIn(frame, mapping), inverse) == frame
  {
    var after := RenameIn(frame, mapping);
    RenamesAlike(frame, mapping);
    RenamesAlike(after, inverse);
    forall i | 0 <= i < |frame| ensures RenameIn(after, inverse)[i] == frame[i] {
      RenamedAt(frame, mapping, i);
      RenamedAt(after, inverse, i);
      NameRestored(frame, mapping, inverse, i);
    }
    hide RenameIn;
  }

  lemma TargetsAreKnown<Cells>(frame: Frame<Cells>, mapping: map<Name, Name>, inverse: map<Name, Name>)
    requires IsInverse(mapping, inverse) && AllKnown(mapping.Keys, NamesOf(frame))
    ensures AllKnown(inverse.Keys, NamesOf(RenameIn(frame, mapping)))
  {
    forall name | name in inverse.Keys ensures name in NamesOf(RenameIn(frame, mapping)) {
      var source :| source in mapping && mapping[source] == name;
      var j :| 0 <= j < |frame| && NamesOf(frame)[j] == source;
      RenamedAt(frame, mapping, j);
      assert NamesOf(RenameIn(frame, mapping))[j] == name;
    }
  }

  /** An accepted renaming is undone by its inverse, which is accepted too: swaps and chains included. */
  lemma RenamingIsReversible<Cells>(frame: Frame<Cells>, mapping: map<Name, Name>, inverse: map<Name, Name>,
                                    maxChars: nat)
    requires DistinctNames(NamesOf(frame)) && IsInverse(mapping, inverse)
    requires Execute(frame, RenameColumns(mapping), maxChars).Ok?
    ensures Execute(Execute(frame, RenameColumns(mapping), maxChars).value, RenameColumns(inverse), maxChars)
            == Ok(frame)
  {
    hide RenameIn, NamesOf, DistinctNames, AllKnown, IsInverse, ValidParameters;
    RenamesAlike(frame, mapping);
    FrameRestored(frame, mapping, inverse);
    TargetsAreKnown(frame, mapping, inverse);
    InverseIsValid(mapping, inverse, maxChars);
  }

  lemma InverseIsValid(mapping: map<Name, Name>, inverse: map<Name, Name>, maxChars: nat)
    requires IsInverse(mapping, inverse) && ValidParameters(RenameColumns(mapping), maxChars)
    ensures ValidParameters(RenameColumns(inverse), maxChars)
  {
    hide ValidName;
    forall target | target in inverse ensures inverse[target] in mapping && mapping[inverse[target]] == target {
      var source :| source in mapping && mapping[source] == target;
    }
  }
}
