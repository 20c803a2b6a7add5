/** The migration runner: which files it runs and in what order, and what a failure at any point leaves behind.
    The meaning of SQL is a parameter: `exec` takes a schema and a script to the new schema, or to None for an error. */
module Migrations {
  import opened Text

  // Scripts that hold nothing to execute.

  function TrimLeft(s: string): string { if s != "" && IsSpace(s[0]) then TrimLeft(s[1..]) else s }

  function TrimRight(s: string): string { if s != "" && IsSpace(s[|s| - 1]) then TrimRight(s[..|s| - 1]) else s }

  function TrimSpace(s: string): string { TrimRight(TrimLeft(s)) }

  /** strings.Split(s, "\n"). */
  function Lines(s: string): (r: seq<string>)
    ensures |r| > 0
  {
    if s == "" then [""] else
    var rest := Lines(s[1..]);
    if s[0] == '\n' then [""] + rest else [[s[0]] + rest[0]] + rest[1..]
  }

  function Joined(lines: seq<string>): string
    requires |lines| > 0
  {
    if |lines| == 1 then lines[0] else lines[0] + "\n" + Joined(lines[1..])
  }

  /** The lines are the pieces between line feeds. */
  lemma {:induction false} LinesAreThePieces(s: string)
    ensures Joined(Lines(s)) == s && forall l :: l in Lines(s) ==> '\n' !in l
  {
    if s != "" {
      LinesAreThePieces(s[1..]);
      var rest := Lines(s[1..]);
      assert s == [s[0]] + s[1..];
      if s[0] == '\n' {
        assert ([""] + rest)[1..] == rest;
      } else {
        var head := [s[0]] + rest[0];
        assert Lines(s) == [head] + rest[1..] && ([head] + rest[1..])[1..] == rest[1..];
        if |rest| > 1 {
          assert Joined([head] + rest[1..]) == [s[0]] + (rest[0] + "\n" + Joined(rest[1..]));
        }
        assert rest[0] in rest;
      }
    }
  }

  // What trimming and the comment test come to.

  predicate Blank(s: string)
  {
    forall i :: 0 <= i < |s| ==> IsSpace(s[i])
  }

  predicate Trimmed(s: string)
  {
    s == "" || (!IsSpace(s[0]) && !IsSpace(s[|s| - 1]))
  }

  lemma {:induction false} TrimsLeft(s: string) returns (left: string)
    ensures s == left + TrimLeft(s) && Blank(left) && (TrimLeft(s) == "" || !IsSpace(TrimLeft(s)[0]))
  {
    if s != "" && IsSpace(s[0]) {
      var more := TrimsLeft(s[1..]);
      left := [s[0]] + more;
      assert s == [s[0]] + s[1..];
    } else {
      left := "";
    }
    hide IsSpace;
  }

  lemma {:induction false} TrimsRight(s: string) returns (right: string)
    ensures s == TrimRight(s) + right && Blank(right) && (TrimRight(s) == "" || !IsSpace(TrimRight(s)[|TrimRight(s)| - 1]))
  {
    if s != "" && IsSpace(s[|s| - 1]) {
      var more := TrimsRight(s[..|s| - 1]);
      right := more + [s[|s| - 1]];
      assert s == s[..|s| - 1] + [s[|s| - 1]];
    } else {
      right := "";
    }
    hide IsSpace;
  }

  /** TrimSpace takes white space off both ends, and all of it. */
  lemma Trims(s: string) returns (left: string, right: string)
    ensures s == left + TrimSpace(s) + right && Blank(left) && Blank(right) && Trimmed(TrimSpace(s))
  {
    left := TrimsLeft(s);
    right := TrimsRight(TrimLeft(s));
    var t, u := TrimSpace(s), TrimLeft(s);
    assert u == t + right;
    assert t != "" ==> t[0] == u[0];
    hide IsSpace, TrimLeft, TrimRight;
    assert s == left + (t + right);
  }

  lemma BlankJoin(a: string, b: string)
    ensures Blank(a + b) <==> Blank(a) && Blank(b)
  {
    hide IsSpace;
    if Blank(a + b) {
      assert forall i :: 0 <= i < |a| ==> a[i] == (a + b)[i];
      assert forall i :: 0 <= i < |b| ==> b[i] == (a + b)[|a| + i];
    }
  }

  /** The line holds nothing: white space, or a comment after white space. */
  predicate Idle(line: string)
  {
    Blank(line) || exists k :: 0 <= k <= |line| && Blank(line[..k]) && "--" <= line[k..]
  }

  predicate Harmless(line: string)
  {
    TrimSpace(line) == "" || "--" <= TrimSpace(line)
  }

  lemma DashIsNoSpace()
    ensures !IsSpace('-')
  {
  }

  lemma BlankTrims(line: string)
    ensures TrimSpace(line) == "" <==> Blank(line)
  {
    var left, right := Trims(line);
    hide TrimSpace, IsSpace;
    BlankJoin(left + TrimSpace(line), right);
    BlankJoin(left, TrimSpace(line));
    assert Trimmed(TrimSpace(line)) && TrimSpace(line) != "" ==> !Blank(TrimSpace(line));
  }

  /** The line test looks for just that. */
  lemma HarmlessIsIdle(line: string)
    ensures Harmless(line) <==> Idle(line)
  {
    var left, right := Trims(line);
    var t := TrimSpace(line);
    BlankTrims(line);
    DashIsNoSpace();
    hide TrimSpace, IsSpace;
    if !Blank(line) {
      assert line == left + (t + right);
      if "--" <= t {
        assert line[..|left|] == left && line[|left|..] == t + right;
        assert (t + right)[..2] == t[..2];
      }
      if k :| 0 <= k <= |line| && Blank(line[..k]) && "--" <= line[k..] {
        DashesTrim(line, k, left, t, right);
      }
    }
  }

  lemma DashesTrim(line: string, k: nat, left: string, t: string, right: string)
    requires line == left + t + right && Blank(left) && Blank(right) && Trimmed(t) && t != "" && !IsSpace('-')
    requires k <= |line| && Blank(line[..k]) && "--" <= line[k..]
    ensures "--" <= t
  {
    hide IsSpace;
    assert line[k] == line[k..][0] == '-' && line[k + 1] == line[k..][1] == '-';
    assert line[|left|] == t[0];
    forall p | 0 <= p < |line| ensures (p < |left| ==> line[p] == left[p]) && (p < k ==> line[p] == line[..k][p]) {}
    assert |left| == k;
    forall p | |left + t| <= p < |line| ensures line[p] == right[p - |left + t|] {}
    assert k + 1 < |left + t| && t[0] == line[k] && t[1] == line[k + 1];
    assert t[..2] == "--";
  }

  predicate CommentOnly(s: string)
  {
    forall l :: l in Lines(s) ==> Harmless(l)
  }

  /** Every line is blank, or begins with two dashes after white space. */
  predicate AllIdle(s: string)
  {
    forall l :: l in Lines(s) ==> Idle(l)
  }

  lemma CommentsAreIdle(s: string)
    ensures CommentOnly(s) <==> AllIdle(s)
  {
    hide Harmless, Idle, Lines;
    forall l | l in Lines(s) ensures Harmless(l) <==> Idle(l) {
      HarmlessIsIdle(l);
    }
  }

  /** Not all white space, and what follows its leading white space is no comment. */
  ghost predicate Substantive(line: string)
  {
    && (exists i :: 0 <= i < |line| && !IsSpace(line[i]))
    && forall k :: 0 <= k <= |line| && (forall i :: 0 <= i < k ==> IsSpace(line[i])) ==> !("--" <= line[k..])
  }

  lemma SubstantiveIsNotIdle(line: string)
    ensures Substantive(line) <==> !Idle(line)
  {
    hide IsSpace;
    forall k | 0 <= k <= |line| ensures Blank(line[..k]) <==> forall i :: 0 <= i < k ==> IsSpace(line[i]) {
      assert forall i :: 0 <= i < k ==> line[..k][i] == line[i];
    }
    if Idle(line) && !Blank(line) {
      var k :| 0 <= k <= |line| && Blank(line[..k]) && "--" <= line[k..];
    }
  }

  lemma CommentsExactly(s: string)
    ensures CommentOnly(s) <==> forall l :: l in Lines(s) ==> !Substantive(l)
  {
    CommentsAreIdle(s);
    hide Substantive, Idle, CommentOnly, Lines;
    forall l: string ensures Substantive(l) <==> !Idle(l) {
      SubstantiveIsNotIdle(l);
    }
  }

  method IsCommentOnly(s: string) returns (r: bool)
    ensures r == CommentOnly(s)
    ensures r <==> forall l :: l in Lines(s) ==> !Substantive(l)
  {
    CommentsExactly(s);
    var lines := Lines(s);
    hide TrimSpace, Substantive;
    for i := 0 to |lines|
      invariant forall j :: 0 <= j < i ==> Harmless(lines[j])
    {
      var trimmed := TrimSpace(lines[i]);
      if trimmed != "" && !("--" <= trimmed) {
        assert lines[i] in lines;
        return false;
      }
    }
    r := true;
  }

  // White space at either end of a script decides nothing.

  lemma IdleFront(c: char, l: string)
    requires IsSpace(c)
    ensures Idle([c] + l) <==> Idle(l)
  {
    DashIsNoSpace();
    hide IsSpace;
    BlankJoin([c], l);
    var all := [c] + l;
    if k :| 0 <= k <= |l| && Blank(l[..k]) && "--" <= l[k..] {
      assert all[..k + 1] == [c] + l[..k] && all[k + 1..] == l[k..];
      BlankJoin([c], l[..k]);
    }
    if k :| 0 <= k <= |all| && Blank(all[..k]) && "--" <= all[k..] {
      assert all[k] == all[k..][0];
      assert all[..k] == [c] + l[..k - 1] && all[k..] == l[k - 1..];
      BlankJoin([c], l[..k - 1]);
    }
  }

  lemma IdleBack(l: string, c: char)
    requires IsSpace(c)
    ensures Idle(l + [c]) <==> Idle(l)
  {
    DashIsNoSpace();
    hide IsSpace;
    BlankJoin(l, [c]);
    var all := l + [c];
    if k :| 0 <= k <= |l| && Blank(l[..k]) && "--" <= l[k..] {
      assert all[..k] == l[..k] && all[k..] == l[k..] + [c];
      assert all[k..][..2] == l[k..][..2];
    }
    if k :| 0 <= k <= |all| && Blank(all[..k]) && "--" <= all[k..] {
      assert all[k + 1] == all[k..][1];
      assert all[..k] == l[..k] && all[k..] == l[k..] + [c];
      assert all[k..][..2] == l[k..][..2];
    }
  }

  /** The lines with one more character at the end. */
  function Longer(lines: seq<string>, c: char): seq<string>
    requires |lines| > 0
  {
    if c == '\n' then lines + [""] else lines[..|lines| - 1] + [lines[|lines| - 1] + [c]]
  }

  lemma LongerTail(head: string, rest: seq<string>, c: char)
    requires |rest| > 0
    ensures Longer([head] + rest, c) == [head] + Longer(rest, c)
  {
  }

  lemma LongerHead(d: char, rest: seq<string>, c: char)
    requires |rest| > 0
    ensures var more := Longer(rest, c); Longer([[d] + rest[0]] + rest[1..], c) == [[d] + more[0]] + more[1..]
  {
    if |rest| == 1 && c != '\n' {
      assert [d] + (rest[0] + [c]) == ([d] + rest[0]) + [c];
    }
  }

  lemma {:induction false} LinesBack(s: string, c: char)
    ensures Lines(s + [c]) == Longer(Lines(s), c)
  {
    if s == "" {
      assert ([c])[1..] == "" && s + [c] == [c];
      assert Lines("") == [""];
      assert [c] + "" == "" + [c];
    } else {
      LinesBack(s[1..], c);
      assert (s + [c])[1..] == s[1..] + [c];
      LongerTail("", Lines(s[1..]), c);
      LongerHead(s[0], Lines(s[1..]), c);
      hide Longer;
    }
  }

  lemma AllIdleFront(c: char, s: string)
    requires IsSpace(c)
    ensures AllIdle([c] + s) <==> AllIdle(s)
  {
    var rest, all := Lines(s), Lines([c] + s);
    assert ([c] + s)[1..] == s;
    IdleFront(c, rest[0]);
    assert Idle("") by { assert Blank(""); }
    hide Idle, IsSpace;
    var head := if c == '\n' then [""] else [[c] + rest[0]];
    assert all == head + if c == '\n' then rest else rest[1..];
    assert rest == [rest[0]] + rest[1..];
    assert all[0] in all && rest[0] in rest;
  }

  lemma AllIdleBack(s: string, c: char)
    requires IsSpace(c)
    ensures AllIdle(s + [c]) <==> AllIdle(s)
  {
    var lines, all := Lines(s), Lines(s + [c]);
    var n := |lines| - 1;
    LinesBack(s, c);
    IdleBack(lines[n], c);
    assert Idle("") by { assert Blank(""); }
    hide Idle, IsSpace, Lines;
    assert all == if c == '\n' then lines + [""] else lines[..n] + [lines[n] + [c]];
    assert lines == lines[..n] + [lines[n]];
    assert lines[n] in lines && all[|all| - 1] in all;
  }

  lemma {:induction false} TrimLeftIdle(s: string)
    ensures AllIdle(TrimLeft(s)) <==> AllIdle(s)
  {
    if s != "" && IsSpace(s[0]) {
      TrimLeftIdle(s[1..]);
      AllIdleFront(s[0], s[1..]);
      assert s == [s[0]] + s[1..];
    }
    hide AllIdle;
  }

  lemma {:induction false} TrimRightIdle(s: string)
    ensures AllIdle(TrimRight(s)) <==> AllIdle(s)
  {
    if s != "" && IsSpace(s[|s| - 1]) {
      TrimRightIdle(s[..|s| - 1]);
      AllIdleBack(s[..|s| - 1], s[|s| - 1]);
      assert s == s[..|s| - 1] + [s[|s| - 1]];
    }
    hide AllIdle;
  }

  // What there is to execute in a file.

  /** `script` is the content without the white space at its two ends. */
  ghost predicate IsCore(content: string, script: string)
  {
    && script != "" && !IsSpace(script[0]) && !IsSpace(script[|script| - 1])
    && exists i, j :: 0 <= i <= j <= |content| && script == content[i..j]
              && (forall m :: 0 <= m < i || j <= m < |content| ==> IsSpace(content[m]))
  }

  lemma IdleContent(content: string)
    ensures TrimSpace(content) == "" || CommentOnly(TrimSpace(content)) <==> AllIdle(content)
  {
    var script := TrimSpace(content);
    TrimRightIdle(TrimLeft(content));
    TrimLeftIdle(content);
    assert TrimRight(TrimLeft(content)) == script;
    hide *;
    CommentsAreIdle(script);
    if script == "" {
      NothingIsIdle();
    }
  }

  lemma NothingIsIdle()
    ensures AllIdle("")
  {
    assert Lines("") == [""] && Blank("");
  }

  lemma IdleExactly(s: string)
    ensures AllIdle(s) <==> !exists l :: l in Lines(s) && Substantive(l)
  {
    hide Idle, Substantive, Lines;
    forall l: string ensures Substantive(l) <==> !Idle(l) {
      SubstantiveIsNotIdle(l);
    }
  }

  lemma TrimmedIsCore(content: string)
    ensures TrimSpace(content) != "" ==> IsCore(content, TrimSpace(content))
  {
    var left, right := Trims(content);
    var script := TrimSpace(content);
    hide TrimSpace, IsSpace;
    var i, j := |left|, |left| + |script|;
    assert script == content[i..j];
    forall m | 0 <= m < i || j <= m < |content| ensures IsSpace(content[m]) {
      assert content[m] == if m < i then left[m] else right[m - j];
    }
  }

  lemma CoreOf(content: string)
    ensures TrimSpace(content) == "" || CommentOnly(TrimSpace(content)) <==> !exists l :: l in Lines(content) && Substantive(l)
    ensures TrimSpace(content) != "" ==> IsCore(content, TrimSpace(content))
  {
    hide *;
    IdleContent(content);
    IdleExactly(content);
    TrimmedIsCore(content);
  }

  /** execStatements: nothing to do for blank or comment-only content, else one Exec of the whole. */
  function ExecStatements<S>(exec: (S, string) -> Option<S>, schema: S, content: string): Option<S>
  {
    var script := TrimSpace(content);
    if script == "" || CommentOnly(script) then Some(schema) else exec(schema, script)
  }

  /** From `a` to `b` by a file with this content: nothing happens when no line is substantive, else one execution of
      the content without the white space at its ends. */
  ghost predicate Executes<S>(exec: (S, string) -> Option<S>, a: S, content: string, b: Option<S>)
  {
    if exists l :: l in Lines(content) && Substantive(l)
    then exists script :: IsCore(content, script) && b == exec(a, script)
    else b == Some(a)
  }

  lemma ExecutesExactly<S>(exec: (S, string) -> Option<S>, schema: S, content: string)
    ensures Executes(exec, schema, content, ExecStatements(exec, schema, content))
  {
    CoreOf(content);
    hide TrimSpace, CommentOnly, Lines, Substantive, IsCore;
  }

  // The files, in order.

  datatype File = File(name: string, isDir: bool, content: string)

  predicate IsMigration(f: File)
  {
    !f.isDir && |f.name| >= 4 && f.name[|f.name| - 4..] == ".sql"
  }

  ghost predicate Distinct(files: seq<File>)
  {
    forall i, j :: 0 <= i < j < |files| ==> files[i].name != files[j].name
  }

  ghost predicate Ascending(files: seq<File>)
  {
    forall i, j :: 0 <= i < j < |files| ==> Precedes(files[i].name, files[j].name)
  }

  function Place(f: File, files: seq<File>): (r: seq<File>)
    ensures multiset(r) == multiset{f} + multiset(files)
  {
    if files == [] || !Precedes(files[0].name, f.name) then [f] + files else
    assert files == [files[0]] + files[1..];
    [files[0]] + Place(f, files[1..])
  }

  /** sort.Slice by name. */
  function Sorted(files: seq<File>): (r: seq<File>)
    ensures multiset(r) == multiset(files)
  {
    if files == [] then [] else
    assert files == [files[0]] + files[1..];
    Place(files[0], Sorted(files[1..]))
  }

  lemma {:induction false} PlaceMembers(f: File, files: seq<File>, g: File)
    ensures g in Place(f, files) <==> g == f || g in files
  {
    if files != [] && Precedes(files[0].name, f.name) {
      PlaceMembers(f, files[1..], g);
      assert files == [files[0]] + files[1..];
    }
  }

  lemma AscendingFront(f: File, files: seq<File>)
    requires Ascending(files) && forall g :: g in files ==> Precedes(f.name, g.name)
    ensures Ascending([f] + files)
  {
    hide Precedes;
    var all := [f] + files;
    forall i, j | 0 <= i < j < |all| ensures Precedes(all[i].name, all[j].name) {
      assert all[j] == files[j - 1] && files[j - 1] in files;
    }
  }

  lemma AscendingHead(files: seq<File>)
    requires Ascending(files) && files != []
    ensures Ascending(files[1..]) && forall g :: g in files[1..] ==> Precedes(files[0].name, g.name)
  {
    hide Precedes;
  }

  lemma {:induction false} PlaceAscends(f: File, files: seq<File>)
    requires Ascending(files) && forall g :: g in files ==> g.name != f.name
    ensures Ascending(Place(f, files))
  {
    hide Precedes, Ascending;
    if files == [] {
      AscendingFront(f, files) by { assert Ascending(files); }
    } else {
      var head, rest := files[0], files[1..];
      AscendingHead(files);
      if Precedes(head.name, f.name) {
        PlaceAscends(f, rest);
        forall g | g in Place(f, rest) ensures Precedes(head.name, g.name) {
          PlaceMembers(f, rest, g);
        }
        AscendingFront(head, Place(f, rest));
      } else {
        PrecedesTotal(head.name, f.name);
        forall g | g in files ensures Precedes(f.name, g.name) {
          if g != head {
            assert g in rest;
            PrecedesTransitive(f.name, head.name, g.name);
          }
        }
        AscendingFront(f, files);
      }
    }
  }

  /** The listing in byte order of names, whatever order the directory was read in. */
  lemma {:induction false} SortedAscends(files: seq<File>)
    requires Distinct(files)
    ensures Ascending(Sorted(files)) && multiset(Sorted(files)) == multiset(files)
  {
    if files != [] {
      var rest := files[1..];
      SortedAscends(rest);
      forall g | g in Sorted(rest) ensures g.name != files[0].name {
        assert g in multiset(Sorted(rest)) && g in rest;
      }
      PlaceAscends(files[0], Sorted(rest));
    }
  }

  function Scripts(files: seq<File>): (r: seq<File>)
    ensures forall f :: f in r <==> f in files && IsMigration(f)
  {
    if files == [] then [] else
    assert files == [files[0]] + files[1..];
    (if IsMigration(files[0]) then [files[0]] else []) + Scripts(files[1..])
  }

  lemma {:induction false} ScriptsAscend(files: seq<File>)
    requires Ascending(files)
    ensures Ascending(Scripts(files))
  {
    if files != [] {
      var rest := files[1..];
      ScriptsAscend(rest);
      forall g | g in Scripts(rest) ensures Precedes(files[0].name, g.name) {
        var k :| 0 <= k < |rest| && rest[k] == g;
      }
    }
  }

  /** The migrations of a directory, in the order they are to be applied. */
  function Plan(entries: seq<File>): seq<File> { Scripts(Sorted(entries)) }

  lemma SqlSuffix(name: string)
    ensures (|name| >= 4 && name[|name| - 4..] == ".sql") <==> exists stem :: name == stem + ".sql"
  {
    if |name| >= 4 && name[|name| - 4..] == ".sql" {
      assert name == name[..|name| - 4] + ".sql";
    }
    if stem :| name == stem + ".sql" {
      assert name[|name| - 4..] == ".sql";
    }
  }

  /** The plan names each .sql file of the directory once, in byte order. */
  lemma PlanIsOrdered(entries: seq<File>)
    requires Distinct(entries)
    ensures Ascending(Plan(entries)) && Distinct(Plan(entries))
    ensures forall f :: f in Plan(entries) <==> f in entries && !f.isDir && exists stem :: f.name == stem + ".sql"
  {
    forall f: File ensures IsMigration(f) <==> !f.isDir && exists stem :: f.name == stem + ".sql" {
      SqlSuffix(f.name);
    }
    hide IsMigration;
    var plan, sorted := Plan(entries), Sorted(entries);
    SortedAscends(entries);
    ScriptsAscend(sorted);
    forall i, j | 0 <= i < j < |plan| ensures plan[i].name != plan[j].name {
      PrecedesIrreflexive(plan[i].name);
    }
    forall f ensures f in sorted <==> f in entries {
      assert f in sorted <==> f in multiset(sorted);
    }
  }

  // One run, and any sequence of runs.

  datatype Db<S> = Db(tracking: bool, versions: seq<string>, schema: S)

  /** The store access that fails; a run stops at its first failure, so one per run is enough. */
  datatype Point = Check | Read | Begin | Exec | Record | Commit

  datatype Fault = Tracking | Listing | At(version: string, point: Point)

  /** One file: skipped when recorded, else executed and recorded in one transaction. */
  function Apply<S>(db: Db<S>, f: File, exec: (S, string) -> Option<S>, fault: Option<Fault>): (Db<S>, bool)
  {
    if fault == Some(At(f.name, Check)) then (db, false)
    else if f.name in db.versions then (db, true)
    else if fault.Some? && fault.value.At? && fault.value.version == f.name then (db, false)
    else
      match ExecStatements(exec, db.schema, f.content)
      case None => (db, false)
      case Some(schema) => (db.(versions := db.versions + [f.name], schema := schema), true)
  }

  function ApplyAll<S>(db: Db<S>, plan: seq<File>, exec: (S, string) -> Option<S>, fault: Option<Fault>): (Db<S>, bool)
    decreases |plan|
  {
    if plan == [] then (db, true) else
    var (next, ok) := Apply(db, plan[0], exec, fault);
    if ok then ApplyAll(next, plan[1..], exec, fault) else (next, false)
  }

  function Migrated<S>(db: Db<S>, entries: seq<File>, exec: (S, string) -> Option<S>, fault: Option<Fault>): (Db<S>, bool)
  {
    if fault == Some(Tracking) then (db, false)
    else if fault == Some(Listing) then (db.(tracking := true), false)
    else ApplyAll(db.(tracking := true), Plan(entries), exec, fault)
  }

  function Runs<S>(db: Db<S>, entries: seq<File>, exec: (S, string) -> Option<S>, faults: seq<Option<Fault>>): Db<S>
  {
    if faults == [] then db else
    Migrated(Runs(db, entries, exec, faults[..|faults| - 1]), entries, exec, faults[|faults| - 1]).0
  }

  function Names(files: seq<File>): (r: seq<string>)
    ensures |r| == |files| && forall i :: 0 <= i < |r| ==> r[i] == files[i].name
  {
    seq(|files|, i requires 0 <= i < |files| => files[i].name)
  }

  predicate Hits(fault: Option<Fault>, version: string)
  {
    fault.Some? && fault.value.At? && fault.value.version == version
  }

  /** Executing files one after the other; None when one of them is in error. */
  function Fold<S>(exec: (S, string) -> Option<S>, schema: S, files: seq<File>): Option<S>
  {
    if files == [] then Some(schema) else
    match Fold(exec, schema, files[..|files| - 1])
    case None => None
    case Some(s) => ExecStatements(exec, s, files[|files| - 1].content)
  }

  /** Exactly the first files of the plan are recorded, in order, and the schema is what executing exactly those gives. */
  ghost predicate AtPrefix<S>(db: Db<S>, plan: seq<File>, exec: (S, string) -> Option<S>, start: S)
  {
    && |db.versions| <= |plan|
    && db.versions == Names(plan[..|db.versions|])
    && Fold(exec, start, plan[..|db.versions|]) == Some(db.schema)
  }

  /** The next file of the plan, when all before it are recorded. */
  lemma ApplyNext<S>(db: Db<S>, plan: seq<File>, exec: (S, string) -> Option<S>, fault: Option<Fault>, start: S)
    requires Distinct(plan) && AtPrefix(db, plan, exec, start) && |db.versions| < |plan|
    ensures var (t, ok) := Apply(db, plan[|db.versions|], exec, fault);
            && AtPrefix(t, plan, exec, start)
            && (if ok then |t.versions| == |db.versions| + 1 && t.tracking == db.tracking else t == db)
    ensures !Apply(db, plan[|db.versions|], exec, fault).1 ==>
              Hits(fault, plan[|db.versions|].name) || Fold(exec, start, plan[..|db.versions| + 1]).None?
  {
    var n := |db.versions|;
    assert plan[n].name !in db.versions;
    assert plan[..n + 1][..n] == plan[..n];
    assert Names(plan[..n + 1]) == Names(plan[..n]) + [plan[n].name];
  }

  lemma ApplyRecorded<S>(db: Db<S>, plan: seq<File>, i: nat, exec: (S, string) -> Option<S>, fault: Option<Fault>, start: S)
    requires AtPrefix(db, plan, exec, start) && i < |db.versions|
    ensures var (t, ok) := Apply(db, plan[i], exec, fault); t == db && (ok <==> fault != Some(At(plan[i].name, Check)))
  {
    assert db.versions[i] == plan[i].name;
    hide Fold;
  }

  lemma ApplyFrom<S>(db: Db<S>, plan: seq<File>, i: nat, exec: (S, string) -> Option<S>, fault: Option<Fault>)
    requires i < |plan|
    ensures var (next, ok) := Apply(db, plan[i], exec, fault);
            ApplyAll(db, plan[i..], exec, fault) == if ok then ApplyAll(next, plan[i + 1..], exec, fault) else (next, false)
  {
    assert plan[i..][0] == plan[i] && plan[i..][1..] == plan[i + 1..];
    hide Apply;
  }

  /** Why a loop from file i on came to no good end at `t`: the look-up of a recorded file failed, an access of the next
      file did, or the next script is in error. */
  ghost predicate Stopped<S>(db: Db<S>, t: Db<S>, plan: seq<File>, i: nat, exec: (S, string) -> Option<S>, fault: Option<Fault>, start: S)
  {
    || (t == db && exists m :: i <= m < |db.versions| && m < |plan| && fault == Some(At(plan[m].name, Check)))
    || (|t.versions| < |plan|
        && (Hits(fault, plan[|t.versions|].name) || Fold(exec, start, plan[..|t.versions| + 1]).None?))
  }

  /** From one prefix to another that is no shorter, complete exactly if nothing stopped it. */
  ghost predicate Progress<S>(
    db: Db<S>, t: Db<S>, ok: bool, plan: seq<File>, i: nat, exec: (S, string) -> Option<S>, fault: Option<Fault>, start: S
  )
  {
    && AtPrefix(t, plan, exec, start) && t.tracking == db.tracking
    && |db.versions| <= |t.versions| && (|t.versions| == |db.versions| ==> t == db)
    && (ok ==> |t.versions| == |plan|)
    && (!ok ==> Stopped(db, t, plan, i, exec, fault, start))
  }

  lemma ProgressMore<S>(
    db: Db<S>, next: Db<S>, t: Db<S>, ok: bool, plan: seq<File>, i: nat, exec: (S, string) -> Option<S>, fault: Option<Fault>, start: S
  )
    requires Progress(next, t, ok, plan, i + 1, exec, fault, start)
    requires next == db || (|next.versions| == |db.versions| + 1 == i + 1 && next.tracking == db.tracking)
    ensures Progress(db, t, ok, plan, i, exec, fault, start)
  {
    hide AtPrefix, Fold;
  }

  lemma ProgressStops<S>(db: Db<S>, plan: seq<File>, i: nat, exec: (S, string) -> Option<S>, fault: Option<Fault>, start: S)
    requires AtPrefix(db, plan, exec, start)
    ensures |db.versions| == |plan| ==> Progress(db, db, true, plan, i, exec, fault, start)
    ensures i < |db.versions| && fault == Some(At(plan[i].name, Check)) ==> Progress(db, db, false, plan, i, exec, fault, start)
    ensures |db.versions| < |plan| && (Hits(fault, plan[|db.versions|].name) || Fold(exec, start, plan[..|db.versions| + 1]).None?) ==>
              Progress(db, db, false, plan, i, exec, fault, start)
  {
    hide Fold;
  }

  /** A loop over the rest of the plan. */
  lemma {:induction false} ApplyRest<S>(db: Db<S>, plan: seq<File>, i: nat, exec: (S, string) -> Option<S>, fault: Option<Fault>, start: S)
    requires Distinct(plan) && AtPrefix(db, plan, exec, start) && i <= |db.versions| <= |plan|
    ensures var (t, ok) := ApplyAll(db, plan[i..], exec, fault); Progress(db, t, ok, plan, i, exec, fault, start)
    decreases |plan| - i
  {
    ProgressStops(db, plan, i, exec, fault, start);
    if i == |plan| {
      assert plan[i..] == [];
      hide Progress;
    } else {
      hide *;
      ApplyFrom(db, plan, i, exec, fault);
      if i == |db.versions| {
        ApplyNext(db, plan, exec, fault, start);
      } else {
        ApplyRecorded(db, plan, i, exec, fault, start);
      }
      var (next, ok) := Apply(db, plan[i], exec, fault);
      if ok {
        ApplyRest(next, plan, i + 1, exec, fault, start);
        var (t, done) := ApplyAll(next, plan[i + 1..], exec, fault);
        ProgressMore(db, next, t, done, plan, i, exec, fault, start);
      }
    }
  }

  lemma {:induction false} FoldStops<S>(exec: (S, string) -> Option<S>, start: S, files: seq<File>, n: nat)
    requires n <= |files| && Fold(exec, start, files[..n]).None?
    ensures Fold(exec, start, files).None?
    decreases |files|
  {
    if n < |files| {
      assert files[..|files| - 1][..n] == files[..n];
      FoldStops(exec, start, files[..|files| - 1], n);
    } else {
      assert files[..n] == files;
    }
  }

  lemma FullPrefix<S>(db: Db<S>, plan: seq<File>, exec: (S, string) -> Option<S>, start: S)
    requires AtPrefix(db, plan, exec, start)
    ensures AtPrefix(db.(tracking := true), plan, exec, start)
    ensures |db.versions| == |plan| ==> db.versions == Names(plan) && Fold(exec, start, plan) == Some(db.schema)
  {
    assert plan[..|plan|] == plan;
  }

  lemma PrefixesNest<S>(db: Db<S>, t: Db<S>, plan: seq<File>, exec: (S, string) -> Option<S>, start: S)
    requires AtPrefix(db, plan, exec, start) && AtPrefix(t, plan, exec, start) && |db.versions| <= |t.versions|
    ensures db.versions <= t.versions
  {
  }

  /** The loop of one run, over the whole plan. */
  lemma LoopKeepsPrefix<S>(db: Db<S>, plan: seq<File>, exec: (S, string) -> Option<S>, fault: Option<Fault>, start: S)
    requires Distinct(plan) && AtPrefix(db, plan, exec, start)
    ensures var (t, ok) := ApplyAll(db.(tracking := true), plan, exec, fault);
            && AtPrefix(t, plan, exec, start) && t.tracking
            && |db.versions| <= |t.versions| && (|t.versions| == |db.versions| ==> t == db.(tracking := true))
            && (ok ==> t.versions == Names(plan) && Fold(exec, start, plan) == Some(t.schema))
            && (!ok ==> Stopped(db.(tracking := true), t, plan, 0, exec, fault, start))
            && (fault.None? && !ok ==> Fold(exec, start, plan).None?)
  {
    FullPrefix(db, plan, exec, start);
    assert plan[0..] == plan && |db.versions| <= |plan|;
    hide *;
    ApplyRest(db.(tracking := true), plan, 0, exec, fault, start);
    var (t, ok) := ApplyAll(db.(tracking := true), plan, exec, fault);
    ProgressEnds(db.(tracking := true), t, ok, plan, exec, fault, start);
  }

  lemma ProgressEnds<S>(db: Db<S>, t: Db<S>, ok: bool, plan: seq<File>, exec: (S, string) -> Option<S>, fault: Option<Fault>, start: S)
    requires Progress(db, t, ok, plan, 0, exec, fault, start)
    ensures AtPrefix(t, plan, exec, start) && t.tracking == db.tracking
    ensures |db.versions| <= |t.versions| && (|t.versions| == |db.versions| ==> t == db)
    ensures ok ==> t.versions == Names(plan) && Fold(exec, start, plan) == Some(t.schema)
    ensures !ok ==> Stopped(db, t, plan, 0, exec, fault, start)
    ensures fault.None? && !ok ==> Fold(exec, start, plan).None?
  {
    hide AtPrefix, Fold, Names;
    FullPrefix(t, plan, exec, start);
    if fault.None? && !ok {
      FoldStops(exec, start, plan, |t.versions| + 1);
    }
  }

  /** One run, wherever it fails, goes from a prefix to a prefix that is no shorter; success completes the plan. */
  lemma MigratedKeepsPrefix<S>(db: Db<S>, entries: seq<File>, exec: (S, string) -> Option<S>, fault: Option<Fault>, start: S)
    requires Distinct(entries) && AtPrefix(db, Plan(entries), exec, start)
    ensures var (t, ok) := Migrated(db, entries, exec, fault);
            && AtPrefix(t, Plan(entries), exec, start) && db.versions <= t.versions
            && (ok ==> t.versions == Names(Plan(entries)) && t.tracking)
            && (!ok ==> (fault == Some(Tracking) && t == db)
                        || (fault == Some(Listing) && t == db.(tracking := true))
                        || Stopped(db.(tracking := true), t, Plan(entries), 0, exec, fault, start))
  {
    FullPrefix(db, Plan(entries), exec, start);
    PlanIsOrdered(entries);
    hide Plan, ApplyAll, AtPrefix, Names, Fold;
    if fault != Some(Tracking) && fault != Some(Listing) {
      var t := ApplyAll(db.(tracking := true), Plan(entries), exec, fault).0;
      LoopKeepsPrefix(db, Plan(entries), exec, fault, start);
      PrefixesNest(db, t, Plan(entries), exec, start);
    }
  }

  lemma {:induction false} RunsKeepPrefix<S>(start: S, entries: seq<File>, exec: (S, string) -> Option<S>, faults: seq<Option<Fault>>)
    requires Distinct(entries)
    ensures AtPrefix(Runs(Db(false, [], start), entries, exec, faults), Plan(entries), exec, start)
  {
    if faults != [] {
      var most := faults[..|faults| - 1];
      RunsKeepPrefix(start, entries, exec, most);
      hide AtPrefix, Migrated;
      MigratedKeepsPrefix(Runs(Db(false, [], start), entries, exec, most), entries, exec, faults[|faults| - 1], start);
    }
  }

  /** A fold goes through as many schemas as there are files. */
  lemma {:induction false} FoldExecutes<S>(exec: (S, string) -> Option<S>, start: S, files: seq<File>) returns (schemas: seq<S>)
    requires Fold(exec, start, files).Some?
    ensures |schemas| == |files| + 1 && schemas[0] == start && Some(schemas[|files|]) == Fold(exec, start, files)
    ensures forall i :: 0 <= i < |files| ==> Executes(exec, schemas[i], files[i].content, Some(schemas[i + 1]))
  {
    if files == [] {
      schemas := [start];
    } else {
      var most := files[..|files| - 1];
      var before := FoldExecutes(exec, start, most);
      ExecutesExactly(exec, before[|most|], files[|most|].content);
      schemas := before + [Fold(exec, start, files).value];
      hide Executes, ExecStatements;
      forall i | 0 <= i < |files| ensures Executes(exec, schemas[i], files[i].content, Some(schemas[i + 1])) {
        assert i < |most| ==> files[i] == most[i] && schemas[i] == before[i] && schemas[i + 1] == before[i + 1];
      }
    }
  }

  /** Any number of runs, each failing anywhere: the first so many migrations of the plan are recorded, each once and in
      order, and the schema comes from executing just their scripts, each once and in that order. */
  lemma ExactlyOnce<S>(start: S, entries: seq<File>, exec: (S, string) -> Option<S>, faults: seq<Option<Fault>>) returns (schemas: seq<S>)
    requires Distinct(entries)
    ensures var (db, plan) := (Runs(Db(false, [], start), entries, exec, faults), Plan(entries));
            && |db.versions| <= |plan| && |schemas| == |db.versions| + 1
            && (forall i :: 0 <= i < |db.versions| ==>
                  db.versions[i] == plan[i].name && Executes(exec, schemas[i], plan[i].content, Some(schemas[i + 1])))
            && schemas[0] == start && schemas[|db.versions|] == db.schema
  {
    RunsKeepPrefix(start, entries, exec, faults);
    var db, plan := Runs(Db(false, [], start), entries, exec, faults), Plan(entries);
    var n := |db.versions|;
    schemas := FoldExecutes(exec, start, plan[..n]);
    hide Executes, Runs, Plan, Fold;
    forall i | 0 <= i < n
      ensures db.versions[i] == plan[i].name && Executes(exec, schemas[i], plan[i].content, Some(schemas[i + 1]))
    {
      assert plan[..n][i] == plan[i];
    }
  }

  lemma CleanRun<S>(db: Db<S>, entries: seq<File>, exec: (S, string) -> Option<S>)
    ensures Migrated(db, entries, exec, None) == ApplyAll(db.(tracking := true), Plan(entries), exec, None)
  {
    hide Plan, ApplyAll;
  }

  /** After any such runs, a run without a failing access succeeds exactly when every script of the plan executes. */
  lemma CleanRunCompletes<S>(start: S, entries: seq<File>, exec: (S, string) -> Option<S>, faults: seq<Option<Fault>>)
    requires Distinct(entries)
    ensures var (t, ok) := Migrated(Runs(Db(false, [], start), entries, exec, faults), entries, exec, None);
            && (ok <==> Fold(exec, start, Plan(entries)).Some?)
            && (ok ==> t.versions == Names(Plan(entries)) && Some(t.schema) == Fold(exec, start, Plan(entries)))
  {
    hide *;
    var db := Runs(Db(false, [], start), entries, exec, faults);
    RunsKeepPrefix(start, entries, exec, faults);
    PlanIsOrdered(entries);
    CleanRun(db, entries, exec);
    LoopKeepsPrefix(db, Plan(entries), exec, None, start);
  }

  /** Once complete, a later run changes nothing, whether it fails or not. */
  lemma LaterRunsChangeNothing<S>(db: Db<S>, entries: seq<File>, exec: (S, string) -> Option<S>, fault: Option<Fault>, start: S)
    requires Distinct(entries) && AtPrefix(db, Plan(entries), exec, start)
    requires db.tracking && db.versions == Names(Plan(entries))
    ensures Migrated(db, entries, exec, fault).0 == db
    ensures fault.None? ==> Migrated(db, entries, exec, fault).1
  {
    hide Plan, ApplyAll, AtPrefix, Names, Fold;
    assert db.(tracking := true) == db;
    if fault != Some(Tracking) && fault != Some(Listing) {
      PlanIsOrdered(entries);
      LoopKeepsPrefix(db, Plan(entries), exec, fault, start);
      FullPrefix(db, Plan(entries), exec, start);
      PrefixIsShort(ApplyAll(db, Plan(entries), exec, fault).0, Plan(entries), exec, start);
    }
  }

  lemma PrefixIsShort<S>(db: Db<S>, plan: seq<File>, exec: (S, string) -> Option<S>, start: S)
    requires AtPrefix(db, plan, exec, start)
    ensures |db.versions| <= |plan| == |Names(plan)|
  {
  }

  /** The loop over a whole listing, one file at a time. */
  lemma ApplyFirst<S>(db: Db<S>, files: seq<File>, exec: (S, string) -> Option<S>, fault: Option<Fault>)
    requires files != []
    ensures var (next, ok) := Apply(db, files[0], exec, fault);
            ApplyAll(db, Scripts(files), exec, fault) ==
            if !IsMigration(files[0]) then ApplyAll(db, Scripts(files[1..]), exec, fault)
            else if ok then ApplyAll(next, Scripts(files[1..]), exec, fault)
            else (next, false)
  {
    hide Apply;
    var rest := Scripts(files[1..]);
    if IsMigration(files[0]) {
      assert Scripts(files) == [files[0]] + rest && ([files[0]] + rest)[1..] == rest;
    } else {
      assert Scripts(files) == [] + rest == rest;
    }
  }

  lemma Points(p: Point)
    ensures p == Check || p == Read || p == Begin || p == Exec || p == Record || p == Commit
  {
    match p
    case Check => case Read => case Begin => case Exec => case Record => case Commit =>
  }

  // The runner.

  /** The database file: what is durable, and the open transaction's working copy if there is one. */
  class Store<S> {
    var tracking: bool
    var versions: seq<string>
    var schema: S
    var tx: Option<Db<S>>

    ghost function Abs(): Db<S>
      reads this
    {
      Db(tracking, versions, schema)
    }

    constructor (schema: S)
      ensures Abs() == Db(false, [], schema) && tx.None?
    {
      tracking, versions, tx := false, [], None;
      this.schema := schema;
    }

    method Begin(fault: bool) returns (ok: bool)
      requires tx.None?
      modifies this`tx
      ensures ok == !fault && tx == if ok then Some(Abs()) else None
    {
      ok := !fault;
      if ok {
        tx := Some(Db(tracking, versions, schema));
      }
    }

    /** execStatements, inside the transaction. */
    method Execute(exec: (S, string) -> Option<S>, content: string, fault: bool) returns (ok: bool)
      requires tx.Some?
      modifies this`tx
      ensures fault ==> !ok
      ensures !fault ==> exists after ::
                && Executes(exec, old(tx).value.schema, content, after) && ok == after.Some?
                && tx == if ok then Some(old(tx).value.(schema := after.value)) else old(tx)
      ensures ok == (!fault && ExecStatements(exec, old(tx).value.schema, content).Some?)
      ensures tx == if ok then Some(old(tx).value.(schema := ExecStatements(exec, old(tx).value.schema, content).value)) else old(tx)
    {
      ExecutesExactly(exec, tx.value.schema, content);
      hide TrimSpace, CommentOnly, Lines, Executes;
      var script := TrimSpace(content);
      if fault {
        return false;
      }
      if script == "" {
        return true;
      }
      var nothing := IsCommentOnly(script);
      if nothing {
        return true;
      }
      var after := exec(tx.value.schema, script);
      ok := after.Some?;
      if ok {
        tx := Some(tx.value.(schema := after.value));
      }
    }

    /** INSERT INTO schema_migrations; the key refuses a version that is present. */
    method Record(version: string, fault: bool) returns (ok: bool)
      requires tx.Some?
      modifies this`tx
      ensures ok == (!fault && version !in old(tx).value.versions)
      ensures tx == if ok then Some(old(tx).value.(versions := old(tx).value.versions + [version])) else old(tx)
    {
      ok := !fault && version !in tx.value.versions;
      if ok {
        tx := Some(tx.value.(versions := tx.value.versions + [version]));
      }
    }

    method Rollback()
      modifies this`tx
      ensures tx.None?
    {
      tx := None;
    }

    /** All of the working copy, or nothing; the transaction is over either way. */
    method Commit(fault: bool) returns (ok: bool)
      requires tx.Some?
      modifies this
      ensures ok == !fault && tx.None? && Abs() == if ok then old(tx).value else old(Abs())
    {
      ok := !fault;
      if ok {
        tracking, versions, schema := tx.value.tracking, tx.value.versions, tx.value.schema;
      }
      tx := None;
    }

    /** One file of Migrate's loop. */
    method ApplyFile(f: File, exec: (S, string) -> Option<S>, fault: Option<Fault>) returns (ok: bool)
      requires tx.None?
      modifies this
      ensures tx.None? && (Abs(), ok) == Apply(old(Abs()), f, exec, fault)
    {
      hide ExecStatements;
      if fault == Some(At(f.name, Check)) {
        return false;
      }
      if f.name in versions {
        return true;
      }
      if fault == Some(At(f.name, Read)) {
        return false;
      }
      ok := Begin(fault == Some(At(f.name, Point.Begin)));
      if !ok {
        return;
      }
      ok := Execute(exec, f.content, fault == Some(At(f.name, Exec)));
      if !ok {
        Rollback();
        return;
      }
      ok := Record(f.name, fault == Some(At(f.name, Point.Record)));
      if !ok {
        Rollback();
        return;
      }
      ok := Commit(fault == Some(At(f.name, Point.Commit)));
      if ok && fault.Some? && fault.value.At? {
        Points(fault.value.point);
      }
    }

    /** Migrate. */
    method Migrate(entries: seq<File>, exec: (S, string) -> Option<S>, fault: Option<Fault>) returns (ok: bool)
      requires tx.None?
      modifies this
      ensures tx.None? && (Abs(), ok) == Migrated(old(Abs()), entries, exec, fault)
    {
      if fault == Some(Tracking) {
        return false;
      }
      tracking := true;
      if fault == Some(Listing) {
        return false;
      }
      ghost var db := Abs();
      var files := Sorted(entries);
      hide Sorted, Apply;
      assert files[0..] == files && files[|files|..] == [];
      for i := 0 to |files|
        invariant tx.None?
        invariant ApplyAll(Abs(), Scripts(files[i..]), exec, fault) == ApplyAll(db, Scripts(files), exec, fault)
      {
        ApplyFirst(Abs(), files[i..], exec, fault);
        assert files[i..][1..] == files[i + 1..];
        hide Scripts, ApplyAll, IsMigration, Store.Abs;
        if !IsMigration(files[i]) {
          continue;
        }
        ok := ApplyFile(files[i], exec, fault);
        if !ok {
          return;
        }
      }
      ok := true;
    }
  }
}
