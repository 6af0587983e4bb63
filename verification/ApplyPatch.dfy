/** The apply_patch tool: several search-and-replace edits, written all or none. */
module ApplyPatch {
  import opened Wrappers

  type Path = string

  /** What the files hold, byte for byte. Written text is stored as it is: lines end in '\n'. */
  type Files = map<Path, string>

  datatype Patch = Patch(path: string, oldText: string, newText: string)

  /** A validated edit; there is no original when the edit creates the file. */
  datatype Op = Op(path: Path, original: Option<string>, newContent: string)

  datatype PatchError = NoPatches | OutsideSandbox | AlreadyExists | NotFound | TextNotFound | WriteFailed

  function Lookup(files: Files, q: Path): Option<string> {
    if q in files then Some(files[q]) else None
  }

  // ----- Reading -----

  /** Reading a file as text turns "\r\n" and a lone '\r' into '\n'. */
  function ReadText(raw: string): (text: string)
    ensures '\r' !in text
    ensures text == raw <==> '\r' !in raw
  {
    if raw == "" then ""
    else if raw[0] != '\r' then
      assert raw == [raw[0]] + raw[1..];
      [raw[0]] + ReadText(raw[1..])
    else ['\n'] + ReadText(if |raw| > 1 && raw[1] == '\n' then raw[2..] else raw[1..])
  }

  function AfterReturn(raw: string, i: nat): nat {
    if i + 1 < |raw| && raw[i + 1] == '\n' then i + 2 else i + 1
  }

  lemma ReadOne(raw: string)
    requires raw != ""
    ensures raw[0] == '\r' ==> ReadText(raw) == ['\n'] + ReadText(raw[AfterReturn(raw, 0)..])
    ensures raw[0] != '\r' ==> ReadText(raw) == [raw[0]] + ReadText(raw[1..])
  {
  }

  /** The first '\r' becomes a newline, together with a '\n' right after it, and reading goes on from there. */
  lemma {:induction false} FirstReturnBecomesNewline(raw: string, i: nat)
    requires i < |raw| && raw[i] == '\r' && '\r' !in raw[..i]
    ensures ReadText(raw) == raw[..i] + (['\n'] + ReadText(raw[AfterReturn(raw, i)..]))
  {
    hide ReadText;
    ReadOne(raw);
    var read := ['\n'] + ReadText(raw[AfterReturn(raw, i)..]);
    if i == 0 {
      assert raw[..0] + read == read;
    } else {
      assert raw[0] == raw[..i][0];
      OneFurther(raw, i, AfterReturn(raw, i), read);
      FirstReturnBecomesNewline(raw[1..], i - 1);
    }
  }

  lemma OneFurther(raw: string, i: nat, next: nat, read: string)
    requires 1 <= i < next <= |raw|
    ensures '\r' !in raw[..i] ==> '\r' !in raw[1..][..i - 1]
    ensures raw[1..][next - 1..] == raw[next..]
    ensures [raw[0]] + (raw[1..][..i - 1] + read) == raw[..i] + read
  {
    assert raw[1..][..i - 1] == raw[..i][1..];
  }

  /** The files as the tool reads them. */
  function AsText(files: Files): Files {
    map q | q in files :: ReadText(files[q])
  }

  // ----- Finding and replacing -----

  predicate OccursAt(haystack: string, needle: string, i: nat) {
    i + |needle| <= |haystack| && haystack[i..i + |needle|] == needle
  }

  /** `haystack.find(needle)`, from position i on. */
  function FindFrom(haystack: string, needle: string, i: nat): (found: Option<nat>)
    ensures found.Some? ==> i <= found.value && OccursAt(haystack, needle, found.value)
    ensures found.Some? ==> forall j :: i <= j < found.value ==> !OccursAt(haystack, needle, j)
    ensures found.None? ==> forall j :: i <= j ==> !OccursAt(haystack, needle, j)
    decreases |haystack| - i
  {
    if i + |needle| > |haystack| then None
    else if OccursAt(haystack, needle, i) then Some(i)
    else FindFrom(haystack, needle, i + 1)
  }

  /** `s[:i] + new + s[i + n:]` with slices that stop at the end of the text. */
  function Splice(s: string, i: nat, n: nat, new_: string): string {
    (if i <= |s| then s[..i] else s) + new_ + if i + n <= |s| then s[i + n..] else ""
  }

  /** The outside world: where the sandbox lets a path lead, and the whitespace-tolerant search. */
  datatype Helpers = Helpers(resolve: string -> Option<Path>, fuzzy: (string, string) -> Option<nat>)

  function FindSubstring(h: Helpers, haystack: string, needle: string): Option<nat> {
    var exact := FindFrom(haystack, needle, 0);
    if exact.Some? then exact else h.fuzzy(haystack, needle)
  }

  function OpOf(h: Helpers, files: Files, patch: Patch): Result<Op, PatchError> {
    match h.resolve(patch.path)
    case None => Err(OutsideSandbox)
    case Some(path) =>
      if patch.oldText == "" then
        if path in files then Err(AlreadyExists) else Ok(Op(path, None, patch.newText))
      else if path !in files then Err(NotFound)
      else
        var text := ReadText(files[path]);
        match FindSubstring(h, text, patch.oldText)
        case None => Err(TextNotFound)
        case Some(i) => Ok(Op(path, Some(text), Splice(text, i, |patch.oldText|, patch.newText)))
  }

  /** `after` is `before` with its first occurrence of the old text replaced. */
  ghost predicate FirstReplaced(before: string, oldText: string, newText: string, after: string) {
    exists i: nat ::
      && OccursAt(before, oldText, i)
      && (forall j: nat :: j < i ==> !OccursAt(before, oldText, j))
      && after == before[..i] + newText + before[i + |oldText|..]
  }

  lemma ExactMatchReplacesTheFirst(h: Helpers, files: Files, patch: Patch, j: nat)
    requires OpOf(h, files, patch).Ok? && patch.oldText != ""
    requires OccursAt(ReadText(files[OpOf(h, files, patch).value.path]), patch.oldText, j)
    ensures var op := OpOf(h, files, patch).value;
            FirstReplaced(ReadText(files[op.path]), patch.oldText, patch.newText, op.newContent)
  {
    var text := ReadText(files[OpOf(h, files, patch).value.path]);
    var i := FindFrom(text, patch.oldText, 0).value;
    assert OccursAt(text, patch.oldText, i);
  }

  /** The old text stands in the text, or the tolerant search finds it. */
  ghost predicate Found(h: Helpers, text: string, oldText: string) {
    (exists j: nat :: OccursAt(text, oldText, j)) || h.fuzzy(text, oldText).Some?
  }

  /** Validation passes. */
  ghost predicate Accepts(h: Helpers, files: Files, patch: Patch) {
    h.resolve(patch.path).Some? &&
    var q := h.resolve(patch.path).value;
    if patch.oldText == "" then q !in files else q in files && Found(h, ReadText(files[q]), patch.oldText)
  }

  /** Validation fails for this reason. */
  ghost predicate Refuses(h: Helpers, files: Files, patch: Patch, e: PatchError) {
    match h.resolve(patch.path)
    case None => e == OutsideSandbox
    case Some(q) =>
      || (e == AlreadyExists && patch.oldText == "" && q in files)
      || (e == NotFound && patch.oldText != "" && q !in files)
      || (e == TextNotFound && patch.oldText != "" && q in files && !Found(h, ReadText(files[q]), patch.oldText))
  }

  /** When a patch passes validation, and why not otherwise. */
  lemma ValidatesIff(h: Helpers, files: Files, patch: Patch)
    ensures OpOf(h, files, patch).Ok? <==> Accepts(h, files, patch)
    ensures forall e :: OpOf(h, files, patch) == Err(e) <==> Refuses(h, files, patch, e)
  {
    if h.resolve(patch.path).Some? && h.resolve(patch.path).value in files {
      FoundIff(h, ReadText(files[h.resolve(patch.path).value]), patch.oldText);
    }
  }

  lemma FoundIff(h: Helpers, text: string, oldText: string)
    ensures FindSubstring(h, text, oldText).Some? <==> Found(h, text, oldText)
  {
  }

  /** What a valid patch will write: the new file, or the text read with one stretch replaced. */
  lemma ValidatedOp(h: Helpers, files: Files, patch: Patch)
    requires Accepts(h, files, patch)
    ensures OpOf(h, files, patch).Ok?
    ensures var q, op := h.resolve(patch.path).value, OpOf(h, files, patch).value;
            && op.path == q && op.original == Lookup(AsText(files), q)
            && if patch.oldText == "" then op.newContent == patch.newText
               else
                 var text := ReadText(files[q]);
                 if exists j: nat :: OccursAt(text, patch.oldText, j)
                 then FirstReplaced(text, patch.oldText, patch.newText, op.newContent)
                 else CutOut(text, h.fuzzy(text, patch.oldText).value, |patch.oldText|, patch.newText, op.newContent)
  {
    ValidatesIff(h, files, patch);
    if j: nat :| patch.oldText != "" && OccursAt(ReadText(files[h.resolve(patch.path).value]), patch.oldText, j) {
      ExactMatchReplacesTheFirst(h, files, patch, j);
    } else if patch.oldText != "" {
      var text := ReadText(files[h.resolve(patch.path).value]);
      SpliceCutsOut(text, h.fuzzy(text, patch.oldText).value, |patch.oldText|, patch.newText);
    }
  }

  /** `n` characters from position i on, or what there is of them, give way to the new text. */
  ghost predicate CutOut(text: string, i: nat, n: nat, newText: string, after: string) {
    exists front, middle, rest ::
      && text == front + middle + rest && after == front + newText + rest
      && |front| == (if i < |text| then i else |text|)
      && (|middle| == n || (rest == "" && |middle| <= n))
  }

  lemma SpliceCutsOut(text: string, i: nat, n: nat, newText: string)
    ensures CutOut(text, i, n, newText, Splice(text, i, n, newText))
  {
    var from := if i < |text| then i else |text|;
    var to := if i + n < |text| then i + n else |text|;
    assert text == text[..from] + text[from..to] + text[to..];
    assert Splice(text, i, n, newText) == text[..from] + newText + text[to..];
  }

  // ----- Writing and rolling back -----

  function Temp(path: Path): Path {
    path + ".tmp"
  }

  /** Writing the temporary file and renaming it over the target. */
  function Written(files: Files, op: Op): Files {
    (files - {Temp(op.path)})[op.path := op.newContent]
  }

  function WrittenAll(files: Files, ops: seq<Op>): Files {
    if ops == [] then files else Written(WrittenAll(files, ops[..|ops| - 1]), ops[|ops| - 1])
  }

  /** What stops the writing: a write may leave anything in the temporary file, a failed rename leaves all of it. */
  datatype Fault = WriteFails(left: Option<string>) | RenameFails

  function Broken(files: Files, op: Op, fault: Fault): Files {
    match fault
    case WriteFails(None) => files
    case WriteFails(Some(garbage)) => files[Temp(op.path) := garbage]
    case RenameFails => files[Temp(op.path) := op.newContent]
  }

  function Restored(files: Files, op: Op): Files {
    match op.original
    case None => files - {op.path}
    case Some(text) => files[op.path := text]
  }

  function RestoredAll(files: Files, ops: seq<Op>): Files {
    if ops == [] then files else Restored(RestoredAll(files, ops[..|ops| - 1]), ops[|ops| - 1])
  }

  /** The files after operation k faults and the operations before it are rolled back. */
  function AfterFault(files: Files, ops: seq<Op>, k: nat, fault: Fault): Files
    requires k < |ops|
  {
    RestoredAll(Broken(WrittenAll(files, ops[..k]), ops[k], fault), ops[..k])
  }

  ghost predicate Patched(ops: seq<Op>, q: Path) {
    exists i :: 0 <= i < |ops| && ops[i].path == q
  }

  ghost predicate IsTemp(ops: seq<Op>, q: Path) {
    exists i :: 0 <= i < |ops| && Temp(ops[i].path) == q
  }

  /** The originals were read from these files. */
  ghost predicate Faithful(files: Files, ops: seq<Op>) {
    forall i :: 0 <= i < |ops| ==> ops[i].original == Lookup(AsText(files), ops[i].path)
  }

  /** Writing leaves other paths alone, but a path with a temporary name is gone. */
  lemma {:induction false} UnpatchedAfterWriting(files: Files, ops: seq<Op>, q: Path)
    requires !Patched(ops, q)
    ensures Lookup(WrittenAll(files, ops), q) == if IsTemp(ops, q) then None else Lookup(files, q)
  {
    if ops != [] {
      var front, last := ops[..|ops| - 1], ops[|ops| - 1];
      assert last.path != q;
      assert !Patched(front, q) && (IsTemp(ops, q) <==> IsTemp(front, q) || Temp(last.path) == q) by {
        assert forall i :: 0 <= i < |front| ==> front[i] == ops[i];
      }
      UnpatchedAfterWriting(files, front, q);
    }
  }

  lemma {:induction false} UntouchedByRestoring(files: Files, ops: seq<Op>, q: Path)
    requires !Patched(ops, q)
    ensures Lookup(RestoredAll(files, ops), q) == Lookup(files, q)
  {
    if ops != [] {
      var front, last := ops[..|ops| - 1], ops[|ops| - 1];
      assert last.path != q;
      assert !Patched(front, q) by {
        assert forall i :: 0 <= i < |front| ==> front[i] == ops[i];
      }
      UntouchedByRestoring(files, front, q);
    }
  }

  lemma {:induction false} PatchedIsRestored(before: Files, files: Files, ops: seq<Op>, q: Path)
    requires Faithful(before, ops) && Patched(ops, q)
    ensures Lookup(RestoredAll(files, ops), q) == Lookup(AsText(before), q)
  {
    var front, last := ops[..|ops| - 1], ops[|ops| - 1];
    if last.path != q {
      var i :| 0 <= i < |ops| && ops[i].path == q;
      assert front[i].path == q;
      PatchedIsRestored(before, files, front, q);
    }
  }

  /**
   * After a fault at operation k, every path patched before it is back to the text that was read from it,
   * repeated and created paths included, and every other path that is not a temporary name used so far
   * was never touched.
   */
  lemma FaultIsRolledBack(files: Files, ops: seq<Op>, k: nat, fault: Fault, q: Path)
    requires Faithful(files, ops) && k < |ops|
    requires Patched(ops[..k], q) || !IsTemp(ops[..k + 1], q)
    ensures Lookup(AfterFault(files, ops, k, fault), q) == Lookup(if Patched(ops[..k], q) then AsText(files) else files, q)
  {
    var broken := Broken(WrittenAll(files, ops[..k]), ops[k], fault);
    if Patched(ops[..k], q) {
      PatchedIsRestored(files, broken, ops[..k], q);
    } else {
      assert ops[..k + 1][k] == ops[k] && Temp(ops[k].path) != q;
      assert !IsTemp(ops[..k], q) by {
        assert forall i :: 0 <= i < k ==> ops[..k][i] == ops[..k + 1][i];
      }
      UntouchedByRestoring(broken, ops[..k], q);
      UnpatchedAfterWriting(files, ops[..k], q);
    }
  }

  ghost predicate Intact(files: Files, ops: seq<Op>, after: Files) {
    forall q :: q in files || Patched(ops, q) ==> Lookup(after, q) == Lookup(files, q)
  }

  /** Whatever fails, every file that existed or was to be patched is as it was. */
  ghost predicate AllOrNothing(files: Files, ops: seq<Op>) {
    forall k, fault :: 0 <= k < |ops| ==> Intact(files, ops, AfterFault(files, ops, k, fault))
  }

  /** No existing or patched file has the temporary name of an operation, unless an earlier operation patched it. */
  ghost predicate TempsAreSpare(files: Files, ops: seq<Op>) {
    forall i :: 0 <= i < |ops| && (Temp(ops[i].path) in files || Patched(ops, Temp(ops[i].path))) ==>
      Patched(ops[..i], Temp(ops[i].path))
  }

  /** Every existing file that an operation before the last one patches has plain line endings. */
  ghost predicate NoCarriageReturns(files: Files, ops: seq<Op>) {
    forall i :: 0 <= i < |ops| - 1 && ops[i].path in files ==> '\r' !in files[ops[i].path]
  }

  lemma SpareTempsAndPlainLinesAreEnough(files: Files, ops: seq<Op>, k: nat, fault: Fault, q: Path)
    requires Faithful(files, ops) && TempsAreSpare(files, ops) && NoCarriageReturns(files, ops) && k < |ops|
    requires q in files || Patched(ops, q)
    ensures Lookup(AfterFault(files, ops, k, fault), q) == Lookup(files, q)
  {
    if IsTemp(ops[..k + 1], q) {
      var i :| 0 <= i < k + 1 && Temp(ops[..k + 1][i].path) == q;
      assert ops[..k + 1][i] == ops[i];
      var j :| 0 <= j < i && ops[..i][j].path == q;
      assert ops[..k][j].path == q;
    }
    FaultIsRolledBack(files, ops, k, fault, q);
    if Patched(ops[..k], q) {
      var j :| 0 <= j < k && ops[..k][j].path == q;
      assert ops[j].path == q;
    }
  }

  /** What a fault leaves under a temporary name that no earlier operation patched stays there. */
  lemma ClashIsNotRolledBack(files: Files, ops: seq<Op>, i: nat, garbage: string)
    requires i < |ops| && !Patched(ops[..i], Temp(ops[i].path))
    ensures var temp := Temp(ops[i].path);
            && Lookup(AfterFault(files, ops, i, WriteFails(Some(garbage))), temp) == Some(garbage)
            && Lookup(AfterFault(files, ops, i, RenameFails), temp) == Some(ops[i].newContent)
            && Lookup(AfterFault(files, ops, i, WriteFails(None)), temp) == if IsTemp(ops[..i], temp) then None else Lookup(files, temp)
  {
    var temp, written := Temp(ops[i].path), WrittenAll(files, ops[..i]);
    UntouchedByRestoring(Broken(written, ops[i], WriteFails(Some(garbage))), ops[..i], temp);
    UntouchedByRestoring(Broken(written, ops[i], RenameFails), ops[..i], temp);
    UntouchedByRestoring(Broken(written, ops[i], WriteFails(None)), ops[..i], temp);
    UnpatchedAfterWriting(files, ops[..i], temp);
  }

  /** A fault at the last operation writes the text that was read back to every file patched before it. */
  lemma CarriageReturnsAreLost(files: Files, ops: seq<Op>, i: nat)
    requires Faithful(files, ops) && i < |ops| - 1 && ops[i].path in files && '\r' in files[ops[i].path]
    ensures Lookup(AfterFault(files, ops, |ops| - 1, RenameFails), ops[i].path) == Some(ReadText(files[ops[i].path]))
    ensures !AllOrNothing(files, ops)
  {
    assert ops[..|ops| - 1][i].path == ops[i].path;
    FaultIsRolledBack(files, ops, |ops| - 1, RenameFails, ops[i].path);
    assert !Intact(files, ops, AfterFault(files, ops, |ops| - 1, RenameFails));
  }

  /**
   * The tool is all-or-nothing exactly when its temporary names are spare and no file that can be rolled
   * back contains a carriage return.
   */
  lemma AllOrNothingIff(files: Files, ops: seq<Op>)
    requires Faithful(files, ops)
    ensures AllOrNothing(files, ops) <==> TempsAreSpare(files, ops) && NoCarriageReturns(files, ops)
  {
    if TempsAreSpare(files, ops) {
      if NoCarriageReturns(files, ops) {
        forall k, fault, q | 0 <= k < |ops| && (q in files || Patched(ops, q))
          ensures Lookup(AfterFault(files, ops, k, fault), q) == Lookup(files, q)
        {
          SpareTempsAndPlainLinesAreEnough(files, ops, k, fault, q);
        }
      } else {
        var i :| 0 <= i < |ops| - 1 && ops[i].path in files && '\r' in files[ops[i].path];
        CarriageReturnsAreLost(files, ops, i);
      }
    } else {
      var i :| 0 <= i < |ops| && (Temp(ops[i].path) in files || Patched(ops, Temp(ops[i].path)))
               && !Patched(ops[..i], Temp(ops[i].path));
      var q := Temp(ops[i].path);
      var garbage := if Lookup(files, q) == Some("") then "x" else "";
      ClashIsNotRolledBack(files, ops, i, garbage);
      assert !Intact(files, ops, AfterFault(files, ops, i, WriteFails(Some(garbage))));
    }
  }

  // ----- Success -----

  /** Writing this operation puts something at q or takes it away. */
  predicate Touches(op: Op, q: Path) {
    op.path == q || Temp(op.path) == q
  }

  /** The last operation that touches a path decides: it leaves its content there, or takes its temporary file away. */
  lemma {:induction false} LastTouchDecides(files: Files, ops: seq<Op>, t: nat, q: Path)
    requires t < |ops| && Touches(ops[t], q)
    requires forall j :: t < j < |ops| ==> !Touches(ops[j], q)
    ensures Lookup(WrittenAll(files, ops), q) == if ops[t].path == q then Some(ops[t].newContent) else None
  {
    if t < |ops| - 1 {
      var front := ops[..|ops| - 1];
      assert forall j :: 0 <= j < |front| ==> front[j] == ops[j];
      assert !Touches(ops[|ops| - 1], q);
      LastTouchDecides(files, front, t, q);
    }
  }

  lemma {:induction false} LastTouch(ops: seq<Op>, i: nat, q: Path) returns (t: nat)
    requires i < |ops| && Touches(ops[i], q)
    ensures i <= t < |ops| && Touches(ops[t], q)
    ensures forall j :: t < j < |ops| ==> !Touches(ops[j], q)
    decreases |ops| - i
  {
    if j :| i < j < |ops| && Touches(ops[j], q) {
      t := LastTouch(ops, j, q);
    } else {
      t := i;
    }
  }

  /** Every edit is in the files at the end. */
  ghost predicate NoEditLost(files: Files, ops: seq<Op>) {
    forall i :: 0 <= i < |ops| ==> Lookup(WrittenAll(files, ops), ops[i].path) == Some(ops[i].newContent)
  }

  ghost predicate SamePathSameContent(ops: seq<Op>) {
    forall i, j :: 0 <= i < j < |ops| && ops[i].path == ops[j].path ==> ops[i].newContent == ops[j].newContent
  }

  /** A patched path that a later operation uses as its temporary name is patched once more after that. */
  ghost predicate TempsAreRewritten(ops: seq<Op>) {
    forall i, j :: 0 <= i < j < |ops| && Temp(ops[j].path) == ops[i].path ==> PatchedAfter(ops, j, ops[i].path)
  }

  ghost predicate PatchedAfter(ops: seq<Op>, j: nat, q: Path) {
    exists k :: j < k < |ops| && ops[k].path == q
  }

  lemma KeptEditsAreConsistent(files: Files, ops: seq<Op>)
    requires NoEditLost(files, ops)
    ensures SamePathSameContent(ops) && TempsAreRewritten(ops)
  {
    forall i, j | 0 <= i < j < |ops| && Temp(ops[j].path) == ops[i].path ensures PatchedAfter(ops, j, ops[i].path) {
      var t := LastTouch(ops, j, ops[i].path);
      LastTouchDecides(files, ops, t, ops[i].path);
      assert ops[t].path == ops[i].path;
    }
  }

  lemma ConsistentEditIsKept(files: Files, ops: seq<Op>, i: nat)
    requires SamePathSameContent(ops) && TempsAreRewritten(ops) && i < |ops|
    ensures Lookup(WrittenAll(files, ops), ops[i].path) == Some(ops[i].newContent)
  {
    var q := ops[i].path;
    var t := LastTouch(ops, i, q);
    LastTouchDecides(files, ops, t, q);
    assert !PatchedAfter(ops, t, q) by {
      assert forall k :: t < k < |ops| ==> !Touches(ops[k], q);
    }
  }

  /** On success no edit is lost exactly when edits of one path agree and no patched path is left as a temporary name. */
  lemma NoEditLostIff(files: Files, ops: seq<Op>)
    ensures NoEditLost(files, ops) <==> SamePathSameContent(ops) && TempsAreRewritten(ops)
  {
    if NoEditLost(files, ops) {
      KeptEditsAreConsistent(files, ops);
    }
    if SamePathSameContent(ops) && TempsAreRewritten(ops) {
      forall i | 0 <= i < |ops| ensures Lookup(WrittenAll(files, ops), ops[i].path) == Some(ops[i].newContent) {
        ConsistentEditIsKept(files, ops, i);
      }
    }
  }

  ghost predicate DistinctPaths(ops: seq<Op>) {
    forall i, j :: 0 <= i < j < |ops| ==> ops[i].path != ops[j].path
  }

  ghost predicate NoTempNames(files: Files, ops: seq<Op>) {
    forall i :: 0 <= i < |ops| ==> Temp(ops[i].path) !in files && !Patched(ops, Temp(ops[i].path))
  }

  /** On success, with distinct paths, every operation has its effect and nothing else has changed. */
  lemma SuccessIsExact(files: Files, ops: seq<Op>, q: Path)
    requires DistinctPaths(ops) && NoTempNames(files, ops)
    ensures !Patched(ops, q) ==> Lookup(WrittenAll(files, ops), q) == Lookup(files, q)
    ensures forall i :: 0 <= i < |ops| && ops[i].path == q ==>
              Lookup(WrittenAll(files, ops), q) == Some(ops[i].newContent)
  {
    if Patched(ops, q) {
      var i :| 0 <= i < |ops| && ops[i].path == q;
      forall j | i < j < |ops| ensures !Touches(ops[j], q) {
        assert !Patched(ops, Temp(ops[j].path));
      }
      LastTouchDecides(files, ops, i, q);
    } else {
      UnpatchedAfterWriting(files, ops, q);
      if IsTemp(ops, q) {
        assert q !in files;
      }
    }
  }

  // ----- The tool -----

  /** All patches validated against the same files, or the first error. */
  function Plan(h: Helpers, files: Files, patches: seq<Patch>): Result<seq<Op>, PatchError> {
    if patches == [] then Ok([])
    else
      match Plan(h, files, patches[..|patches| - 1])
      case Err(e) => Err(e)
      case Ok(ops) =>
        match OpOf(h, files, patches[|patches| - 1])
        case Err(e) => Err(e)
        case Ok(op) => Ok(ops + [op])
  }

  lemma {:induction false} PlanIsFaithful(h: Helpers, files: Files, patches: seq<Patch>)
    ensures Plan(h, files, patches).Ok? <==> forall i :: 0 <= i < |patches| ==> OpOf(h, files, patches[i]).Ok?
    ensures Plan(h, files, patches).Ok? ==>
              var ops := Plan(h, files, patches).value;
              && |ops| == |patches| && Faithful(files, ops)
              && forall i :: 0 <= i < |ops| ==> OpOf(h, files, patches[i]) == Ok(ops[i])
  {
    if patches != [] {
      var front := patches[..|patches| - 1];
      PlanIsFaithful(h, files, front);
      assert forall i :: 0 <= i < |front| ==> front[i] == patches[i];
    }
  }

  /** Patch i is the first that is refused, for this reason. */
  ghost predicate FirstRefused(h: Helpers, files: Files, patches: seq<Patch>, i: nat, e: PatchError) {
    i < |patches| && Refuses(h, files, patches[i], e) && forall j :: 0 <= j < i ==> Accepts(h, files, patches[j])
  }

  /** Validation passes exactly when every patch does, and otherwise answers what is wrong with the first that does not. */
  lemma {:induction false} PlanDecides(h: Helpers, files: Files, patches: seq<Patch>)
    ensures Plan(h, files, patches).Ok? <==> forall i :: 0 <= i < |patches| ==> Accepts(h, files, patches[i])
    ensures forall e :: Plan(h, files, patches) == Err(e) <==> exists i: nat :: FirstRefused(h, files, patches, i, e)
  {
    hide Accepts, Refuses;
    if patches != [] {
      var n := |patches| - 1;
      var front := patches[..n];
      PlanDecides(h, files, front);
      ValidatesIff(h, files, patches[n]);
      assert forall i :: 0 <= i < n ==> front[i] == patches[i];
      forall e ensures Plan(h, files, patches) == Err(e) <==> exists i: nat :: FirstRefused(h, files, patches, i, e) {
        if Plan(h, files, patches) == Err(e) {
          if i: nat :| FirstRefused(h, files, front, i, e) {
            assert FirstRefused(h, files, patches, i, e);
          } else {
            assert FirstRefused(h, files, patches, n, e);
          }
        }
        if i: nat :| FirstRefused(h, files, patches, i, e) {
          assert i < n ==> FirstRefused(h, files, front, i, e);
        }
      }
    }
  }

  // ----- A patch as a whole -----

  /** Every old text occurs as it stands in the text of its file. */
  ghost predicate ExactMatches(files: Files, ops: seq<Op>, patches: seq<Patch>)
    requires |ops| == |patches|
  {
    forall i :: 0 <= i < |patches| && patches[i].oldText != "" && ops[i].path in files ==>
      exists j: nat :: OccursAt(ReadText(files[ops[i].path]), patches[i].oldText, j)
  }

  /** The patches pass validation with exact matches, on distinct paths away from temporary names. */
  ghost predicate Tidy(h: Helpers, files: Files, patches: seq<Patch>) {
    && patches != [] && Plan(h, files, patches).Ok?
    && var ops := Plan(h, files, patches).value;
       |ops| == |patches| && DistinctPaths(ops) && NoTempNames(files, ops) && ExactMatches(files, ops, patches)
  }

  /** The file of one patch is created with its text, or has precisely its first occurrence replaced. */
  ghost predicate TookEffect(h: Helpers, before: Files, patch: Patch, after: Files) {
    && h.resolve(patch.path).Some?
    && var path := h.resolve(patch.path).value;
       && path in after
       && if patch.oldText == "" then path !in before && after[path] == patch.newText
          else path in before && FirstReplaced(before[path], patch.oldText, patch.newText, after[path])
  }

  ghost predicate AllTookEffect(h: Helpers, before: Files, patches: seq<Patch>, after: Files) {
    forall i :: 0 <= i < |patches| ==> TookEffect(h, before, patches[i], after)
  }

  ghost predicate NamedByNone(h: Helpers, patches: seq<Patch>, q: Path) {
    forall i :: 0 <= i < |patches| ==> h.resolve(patches[i].path) != Some(q)
  }

  ghost predicate OthersUntouched(h: Helpers, files: Files, patches: seq<Patch>, after: Files) {
    forall q :: NamedByNone(h, patches, q) ==> Lookup(after, q) == Lookup(files, q)
  }

  /** Every patch took precisely its effect on what the files hold, and every other file is as it was. */
  ghost predicate PreciselyApplied(h: Helpers, files: Files, patches: seq<Patch>, after: Files) {
    AllTookEffect(h, files, patches, after) && OthersUntouched(h, files, patches, after)
  }

  /** No existing file that is patched contains a carriage return. */
  ghost predicate PlainLines(h: Helpers, files: Files, patches: seq<Patch>) {
    forall i :: 0 <= i < |patches| ==> PlainTarget(h, files, patches[i])
  }

  ghost predicate PlainTarget(h: Helpers, files: Files, patch: Patch) {
    h.resolve(patch.path).Some? && h.resolve(patch.path).value in files ==> '\r' !in files[h.resolve(patch.path).value]
  }

  lemma OnePatchTakesEffect(h: Helpers, files: Files, patches: seq<Patch>, i: nat)
    requires Tidy(h, files, patches) && i < |patches|
    ensures TookEffect(h, AsText(files), patches[i], WrittenAll(files, Plan(h, files, patches).value))
  {
    hide Plan, WrittenAll, FirstReplaced, ReadText;
    var ops := Plan(h, files, patches).value;
    PlanIsFaithful(h, files, patches);
    assert OpOf(h, files, patches[i]) == Ok(ops[i]);
    SuccessIsExact(files, ops, ops[i].path);
    if patches[i].oldText != "" {
      var j: nat :| OccursAt(ReadText(files[ops[i].path]), patches[i].oldText, j);
      ExactMatchReplacesTheFirst(h, files, patches[i], j);
    }
  }

  /** A tidy list of patches is applied precisely to the text of the files. */
  lemma TidyPatchesApplyToTheText(h: Helpers, files: Files, patches: seq<Patch>)
    requires Tidy(h, files, patches)
    ensures AllTookEffect(h, AsText(files), patches, WrittenAll(files, Plan(h, files, patches).value))
    ensures OthersUntouched(h, files, patches, WrittenAll(files, Plan(h, files, patches).value))
  {
    hide Plan, WrittenAll, TookEffect, AsText;
    var ops := Plan(h, files, patches).value;
    forall i | 0 <= i < |patches| ensures TookEffect(h, AsText(files), patches[i], WrittenAll(files, ops)) {
      OnePatchTakesEffect(h, files, patches, i);
    }
    PlanIsFaithful(h, files, patches);
    forall q | NamedByNone(h, patches, q) ensures Lookup(WrittenAll(files, ops), q) == Lookup(files, q) {
      forall i | 0 <= i < |ops| ensures ops[i].path != q {
        assert OpOf(h, files, patches[i]) == Ok(ops[i]);
      }
      SuccessIsExact(files, ops, q);
    }
  }

  /** Replacing one occurrence changes the count of a character by what goes and what comes. */
  lemma ReplacementCounts(before: string, oldText: string, newText: string, after: string, c: char)
    requires FirstReplaced(before, oldText, newText, after)
    ensures multiset(after)[c] + multiset(oldText)[c] == multiset(before)[c] + multiset(newText)[c]
  {
    var i: nat :| OccursAt(before, oldText, i) && after == before[..i] + newText + before[i + |oldText|..];
    assert before == before[..i] + oldText + before[i + |oldText|..];
  }

  /** A replacement in the text is one in the raw contents exactly when the two are the same. */
  lemma ReplacedInBothIff(raw: string, oldText: string, newText: string, after: string)
    requires FirstReplaced(ReadText(raw), oldText, newText, after)
    ensures FirstReplaced(raw, oldText, newText, after) <==> '\r' !in raw
  {
    hide FirstReplaced;
    if '\r' in raw {
      assert multiset(ReadText(raw))['\r'] == 0 && multiset(raw)['\r'] > 0;
      ReplacementCounts(ReadText(raw), oldText, newText, after, '\r');
      if FirstReplaced(raw, oldText, newText, after) {
        ReplacementCounts(raw, oldText, newText, after, '\r');
      }
    }
  }

  lemma OnePatchIsPreciseIff(h: Helpers, files: Files, patch: Patch, after: Files)
    requires TookEffect(h, AsText(files), patch, after)
    ensures TookEffect(h, files, patch, after) <==> PlainTarget(h, files, patch)
  {
    hide FirstReplaced, ReadText;
    var path := h.resolve(patch.path).value;
    if patch.oldText != "" {
      ReplacedInBothIff(files[path], patch.oldText, patch.newText, after[path]);
    }
  }

  /** A tidy list of patches is applied precisely exactly when no existing file that it patches contains a carriage return. */
  lemma TidyPatchesApplyPreciselyIff(h: Helpers, files: Files, patches: seq<Patch>)
    requires Tidy(h, files, patches)
    ensures PreciselyApplied(h, files, patches, WrittenAll(files, Plan(h, files, patches).value)) <==> PlainLines(h, files, patches)
  {
    hide Plan, WrittenAll, TookEffect, AsText, PlainTarget;
    var after := WrittenAll(files, Plan(h, files, patches).value);
    TidyPatchesApplyToTheText(h, files, patches);
    forall i | 0 <= i < |patches| ensures TookEffect(h, files, patches[i], after) <==> PlainTarget(h, files, patches[i]) {
      OnePatchIsPreciseIff(h, files, patches[i], after);
    }
  }

  lemma PlanAppend(h: Helpers, files: Files, front: seq<Patch>, patch: Patch)
    requires Plan(h, files, front).Ok? && OpOf(h, files, patch).Ok?
    ensures Plan(h, files, front + [patch]) == Ok(Plan(h, files, front).value + [OpOf(h, files, patch).value])
  {
    assert (front + [patch])[..|front|] == front;
  }

  const PLAIN := Helpers(p => Some(p), (_, _) => None)

  /** Two edits of one file in one list: validation passes, and the first edit is not in the result. */
  lemma FirstOfTwoEditsIsLost()
    ensures var files, patches := map["f" := "ab"], [Patch("f", "a", "x"), Patch("f", "b", "y")];
            && Plan(PLAIN, files, patches).Ok?
            && !NoEditLost(files, Plan(PLAIN, files, patches).value)
            && Lookup(WrittenAll(files, Plan(PLAIN, files, patches).value), "f") == Some("ay")
  {
    var files: Files := map["f" := "ab"];
    assert 'a' != '\r' && 'b' != '\r' && ReadText("ab") == "ab";
    var first, second := Patch("f", "a", "x"), Patch("f", "b", "y");
    assert OccursAt("ab", "a", 0) && !OccursAt("ab", "b", 0) && OccursAt("ab", "b", 1);
    assert FindFrom("ab", "a", 0) == Some(0) && FindFrom("ab", "b", 0) == Some(1);
    assert Splice("ab", 0, 1, "x") == "xb" && Splice("ab", 1, 1, "y") == "ay";
    var one, two := Op("f", Some("ab"), "xb"), Op("f", Some("ab"), "ay");
    assert OpOf(PLAIN, files, first) == Ok(one) && OpOf(PLAIN, files, second) == Ok(two);
    PlanOfTwo(PLAIN, files, first, second);
    LastTouchDecides(files, [one, two], 1, "f");
    assert [one, two][0].newContent != "ay";
  }

  /**
   * Two edits of two files, and a rename of the second that fails: the first file is written back
   * without its carriage return, although the temporary names are spare.
   */
  lemma RollbackLosesCarriageReturns()
    ensures var files, patches := map["a" := "x\r\ny", "b" := "p"], [Patch("a", "x", "z"), Patch("b", "p", "q")];
            && Plan(PLAIN, files, patches).Ok?
            && var ops := Plan(PLAIN, files, patches).value;
               && |ops| == 2 && TempsAreSpare(files, ops)
               && Lookup(AfterFault(files, ops, 1, RenameFails), "a") == Some("x\ny")
  {
    var files: Files := map["a" := "x\r\ny", "b" := "p"];
    var first, second := Patch("a", "x", "z"), Patch("b", "p", "q");
    ReadsAs();
    assert OccursAt("x\ny", "x", 0) && OccursAt("p", "p", 0);
    assert FindFrom("x\ny", "x", 0) == Some(0) && FindFrom("p", "p", 0) == Some(0);
    assert Splice("x\ny", 0, 1, "z") == "z\ny" && Splice("p", 0, 1, "q") == "q";
    var one, two := Op("a", Some("x\ny"), "z\ny"), Op("b", Some("p"), "q");
    assert OpOf(PLAIN, files, first) == Ok(one) && OpOf(PLAIN, files, second) == Ok(two);
    PlanOfTwo(PLAIN, files, first, second);
    var ops := [one, two];
    assert Temp("a") == "a.tmp" && Temp("b") == "b.tmp";
    assert TempsAreSpare(files, ops);
    PlanIsFaithful(PLAIN, files, [first, second]);
    assert ops[0].path in files;
    assert files["a"][1] == '\r';
    CarriageReturnsAreLost(files, ops, 0);
  }

  lemma ReadsAs()
    ensures ReadText("x\r\ny") == "x\ny" && ReadText("p") == "p"
  {
    var raw := "x\r\ny";
    assert raw[1..] == "\r\ny" && raw[1..][2..] == "y" && raw[1..][2..][1..] == "";
    assert ReadText("y") == "y";
    assert ReadText("\r\ny") == ['\n'] + "y";
    assert "p"[1..] == "";
  }

  lemma PlanOfTwo(h: Helpers, files: Files, first: Patch, second: Patch)
    requires OpOf(h, files, first).Ok? && OpOf(h, files, second).Ok?
    ensures Plan(h, files, [first, second]) == Ok([OpOf(h, files, first).value, OpOf(h, files, second).value])
  {
    PlanAppend(h, files, [], first);
    assert [] + [first] == [first] && [] + [OpOf(h, files, first).value] == [OpOf(h, files, first).value];
    PlanAppend(h, files, [first], second);
    assert [first] + [second] == [first, second];
    var one, two := OpOf(h, files, first).value, OpOf(h, files, second).value;
    assert [one] + [two] == [one, two];
  }

  lemma {:induction false} FirstErrorIsFinal(h: Helpers, files: Files, patches: seq<Patch>, n: nat)
    requires n <= |patches| && Plan(h, files, patches[..n]).Err?
    ensures Plan(h, files, patches) == Plan(h, files, patches[..n])
    decreases |patches| - n
  {
    if n == |patches| {
      assert patches[..n] == patches;
    } else {
      assert patches[..n + 1][..n] == patches[..n];
      FirstErrorIsFinal(h, files, patches, n + 1);
    }
  }

  class Disk {
    var files: Files

    method WriteText(path: Path, text: string)
      modifies this
      ensures files == old(files)[path := text]
    {
      files := files[path := text];
    }

    method Replace(source: Path, target: Path)
      requires source in files
      modifies this
      ensures files == (old(files) - {source})[target := old(files)[source]]
    {
      files := (files - {source})[target := files[source]];
    }

    method Unlink(path: Path)
      modifies this
      ensures files == old(files) - {path}
    {
      files := files - {path};
    }

    method Validate(h: Helpers, patches: seq<Patch>) returns (r: Result<seq<Op>, PatchError>)
      ensures r == Plan(h, files, patches)
      ensures r.Ok? <==> forall i :: 0 <= i < |patches| ==> Accepts(h, files, patches[i])
      ensures r.Err? ==> exists i: nat :: FirstRefused(h, files, patches, i, r.error)
    {
      hide Accepts, FirstRefused;
      PlanDecides(h, files, patches);
      var ops := [];
      for i := 0 to |patches|
        invariant Plan(h, files, patches[..i]) == Ok(ops)
      {
        assert patches[..i + 1][..i] == patches[..i];
        match OpOf(h, files, patches[i]) {
          case Err(e) =>
            FirstErrorIsFinal(h, files, patches, i + 1);
            return Err(e);
          case Ok(op) => ops := ops + [op];
        }
      }
      assert patches[..|patches|] == patches;
      r := Ok(ops);
    }

    /** Writes one file by way of its temporary name; `fault` is what goes wrong, if anything does. */
    method WriteOne(op: Op, fault: Option<Fault>)
      modifies this
      ensures files == if fault.Some? then Broken(old(files), op, fault.value) else Written(old(files), op)
    {
      var tmp := Temp(op.path);
      if fault.Some? && fault.value.WriteFails? {
        if fault.value.left.Some? {
          WriteText(tmp, fault.value.left.value);
        }
        return;
      }
      WriteText(tmp, op.newContent);
      if fault.None? {
        Replace(tmp, op.path);
      }
    }

    method RollBack(ops: seq<Op>)
      modifies this
      ensures files == RestoredAll(old(files), ops)
    {
      for i := 0 to |ops|
        invariant files == RestoredAll(old(files), ops[..i])
      {
        assert ops[..i + 1][..i] == ops[..i];
        match ops[i].original {
          case None => Unlink(ops[i].path);
          case Some(text) => WriteText(ops[i].path, text);
        }
      }
      assert ops[..|ops|] == ops;
    }

    /** `fault` is the first thing to go wrong while writing: what, and at which operation. */
    method Run(h: Helpers, patches: seq<Patch>, fault: Option<(nat, Fault)>) returns (error: Option<PatchError>)
      modifies this
      ensures patches == [] ==> error == Some(NoPatches) && files == old(files)
      ensures patches != [] ==>
                match Plan(h, old(files), patches)
                case Err(e) => error == Some(e) && files == old(files)
                case Ok(ops) =>
                  if fault.Some? && fault.value.0 < |ops|
                  then error == Some(WriteFailed) && files == AfterFault(old(files), ops, fault.value.0, fault.value.1)
                  else error == None && files == WrittenAll(old(files), ops)
      ensures error.None? && Tidy(h, old(files), patches) ==>
                && AllTookEffect(h, AsText(old(files)), patches, files) && OthersUntouched(h, old(files), patches, files)
                && (PreciselyApplied(h, old(files), patches, files) <==> PlainLines(h, old(files), patches))
    {
      if patches == [] {
        return Some(NoPatches);
      }
      var plan := Validate(h, patches);
      if plan.Err? {
        return Some(plan.error);
      }
      var ops := plan.value;
      for i := 0 to |ops|
        invariant fault.Some? ==> i <= fault.value.0 || |ops| <= fault.value.0
        invariant files == WrittenAll(old(files), ops[..i])
      {
        assert ops[..i + 1][..i] == ops[..i];
        if fault.Some? && fault.value.0 == i {
          WriteOne(ops[i], Some(fault.value.1));
          RollBack(ops[..i]);
          return Some(WriteFailed);
        }
        WriteOne(ops[i], None);
      }
      assert ops[..|ops|] == ops;
      error := None;
      if Tidy(h, old(files), patches) {
        TidyPatchesApplyToTheText(h, old(files), patches);
        TidyPatchesApplyPreciselyIff(h, old(files), patches);
      }
    }
  }
}
