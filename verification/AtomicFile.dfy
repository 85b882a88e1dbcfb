/** internal/atomicfile: replacing a file through a temporary file in the same directory,
    and removing the temporary files that killed writers left.
    A directory is the map from its file names to their contents. */
module AtomicFile {
  import opened Text

  type Directory = map<string, string>

  // ---- Names ----

  function Undotted(base: string): string { if "." <= base then base[1..] else base }

  function TempPrefix(base: string): string { "." + Undotted(base) + ".tmp-" }

  /** The pattern given to both CreateTemp and Glob. */
  function TempPattern(base: string): string { TempPrefix(base) + "*" }

  /** The names that CreateTemp can choose for `base`: the star becomes random digits. */
  predicate IsTemp(base: string, name: string) {
    TempPrefix(base) < name && Digits(name[|TempPrefix(base)|..])
  }

  /** The names that a cleanup takes for copies of `base` left by a killed write. */
  predicate IsLeftover(base: string, name: string) { TempPrefix(base) <= name }

  /** The temporary files of `x` and of `.x` are named alike, and hidden. */
  lemma PrefixIs(name: string)
    ensures TempPrefix("." + name) == "." + name + ".tmp-"
    ensures !("." <= name) ==> TempPrefix(name) == "." + name + ".tmp-"
    ensures TempPattern(name) == TempPrefix(name) + "*"
  {
    assert ("." + name)[1..] == name;
  }

  lemma TargetIsNoLeftover(base: string)
    ensures !IsLeftover(base, base)
  {
    assert |TempPrefix(base)| > |base|;
  }

  /** Other programs' files can look like leftovers. */
  lemma LeftoversNeedNotBeTemps(base: string)
    ensures IsLeftover(base, TempPrefix(base) + "backup") && !IsTemp(base, TempPrefix(base) + "backup")
  {
    var p := TempPrefix(base);
    assert (p + "backup")[|p|..] == "backup" && "backup"[0] == 'b';
  }

  lemma TempEnd(base: string, name: string)
    requires IsTemp(base, name)
    ensures var p := TempPrefix(base);
      |p| < |name| && p[|p| - 1] == '-' && forall k | |p| <= k < |name| :: '0' <= name[k] <= '9'
  {
    var p := TempPrefix(base);
    assert forall k | |p| <= k < |name| :: name[k] == name[|p|..][k - |p|];
  }

  /** A temporary name of `b` that begins like one of `a` shows that already the prefix does,
      because prefixes end in a dash and the rest are digits. */
  lemma PrefixOfTemp(a: string, b: string, name: string)
    requires IsTemp(b, name) && IsLeftover(a, name)
    ensures TempPrefix(a) <= TempPrefix(b)
  {
    TempEnd(b, name);
    var p, q := TempPrefix(a), TempPrefix(b);
    assert p[|p| - 1] == '-' && name[|p| - 1] == '-';
    assert |p| <= |q|;
    assert p == name[..|q|][..|p|];
  }

  lemma FirstTemp(base: string)
    ensures IsTemp(base, TempPrefix(base) + "0")
  {
    var p := TempPrefix(base);
    assert (p + "0")[|p|..] == "0";
  }

  /** Two targets in one directory have a temporary name in common exactly when their names
      are equal up to a leading dot. */
  lemma SharedTempNames(a: string, b: string)
    ensures (exists name :: IsTemp(a, name) && IsTemp(b, name)) <==> Undotted(a) == Undotted(b)
  {
    hide IsTemp;
    if Undotted(a) == Undotted(b) {
      FirstTemp(a);
      assert IsTemp(b, TempPrefix(a) + "0") by { FirstTemp(b); }
    }
    forall name | IsTemp(a, name) && IsTemp(b, name) ensures Undotted(a) == Undotted(b) {
      TempIsLeftover(a, name);
      TempIsLeftover(b, name);
      PrefixOfTemp(a, b, name);
      PrefixOfTemp(b, a, name);
      SamePrefix(a, b);
    }
  }

  lemma TempIsLeftover(base: string, name: string)
    requires IsTemp(base, name)
    ensures IsLeftover(base, name)
  {}

  lemma SamePrefix(a: string, b: string)
    requires TempPrefix(a) <= TempPrefix(b) && TempPrefix(b) <= TempPrefix(a)
    ensures Undotted(a) == Undotted(b)
  {
    var x, y := TempPrefix(a), TempPrefix(b);
    assert x == y;
    assert x[1..|x| - 5] == Undotted(a) && y[1..|y| - 5] == Undotted(b);
  }

  // ---- Glob ----

  /** Shell-style matching of one path element, without classes and escapes. */
  predicate Match(pattern: string, name: string)
    decreases |pattern|, |name|
  {
    if pattern == "" then name == ""
    else if pattern[0] == '*' then
      Match(pattern[1..], name) || (name != "" && name[0] != '/' && Match(pattern, name[1..]))
    else
      name != "" && (pattern[0] == name[0] || (pattern[0] == '?' && name[0] != '/')) && Match(pattern[1..], name[1..])
  }

  /** The pattern of one name matches nothing in another directory. */
  lemma {:induction false} MatchStays(pattern: string, name: string)
    requires Match(pattern, name) && '/' !in pattern
    ensures '/' !in name
    decreases |pattern|, |name|
  {
    if pattern != "" {
      assert pattern[0] in pattern && forall c | c in pattern[1..] :: c in pattern;
      if pattern[0] == '*' && Match(pattern[1..], name) {
        MatchStays(pattern[1..], name);
      } else {
        assert name == [name[0]] + name[1..];
        MatchStays(if pattern[0] == '*' then pattern else pattern[1..], name[1..]);
      }
    }
  }

  predicate Literal(s: string) {
    forall i | 0 <= i < |s| :: s[i] !in {'*', '?', '[', '\\', '/'}
  }

  lemma {:induction false} StarMatches(name: string)
    requires '/' !in name
    ensures Match("*", name)
  {
    if name == "" {
      assert Match("", "");
    } else {
      assert forall c | c in name[1..] :: c in name;
      assert name[0] in name;
      StarMatches(name[1..]);
    }
  }

  lemma {:induction false} LiteralMatches(prefix: string, name: string)
    requires Literal(prefix) && '/' !in name
    ensures Match(prefix + "*", name) <==> prefix <= name
  {
    if prefix == "" {
      assert prefix + "*" == "*";
      StarMatches(name);
    } else {
      var pattern := prefix + "*";
      assert pattern[1..] == prefix[1..] + "*" && pattern[0] == prefix[0];
      if name != "" {
        assert forall c | c in name[1..] :: c in name;
        LiteralMatches(prefix[1..], name[1..]);
        assert prefix[0] == name[0] ==> (prefix <= name <==> prefix[1..] <= name[1..]);
      }
    }
  }

  /** For a target name without glob metacharacters the cleanup takes exactly the names that
      begin like a temporary one. */
  lemma GlobTakes(base: string, name: string)
    requires Literal(base) && '/' !in name
    ensures Match(TempPattern(base), name) <==> IsLeftover(base, name)
  {
    LiteralMatches(TempPrefix(base), name);
  }

  /** The cleanup after writes of `a` takes a temporary file of `b` exactly when the prefix of
      `a` is one of the prefix of `b`, as it is for `a` and `a.tmp-b`. */
  lemma TakesOthersTempsIff(a: string, b: string)
    requires Literal(a) && '/' !in b
    ensures (exists name :: IsTemp(b, name) && Match(TempPattern(a), name)) <==> TempPrefix(a) <= TempPrefix(b)
  {
    hide Match, IsTemp;
    forall name | IsTemp(b, name)
      ensures Match(TempPattern(a), name) <==> IsLeftover(a, name)
      ensures IsLeftover(a, name) ==> TempPrefix(a) <= TempPrefix(b)
    {
      TempHasNoSlash(b, name);
      GlobTakes(a, name);
      if IsLeftover(a, name) { PrefixOfTemp(a, b, name); }
    }
    FirstTemp(b);
    assert TempPrefix(a) <= TempPrefix(b) ==> IsLeftover(a, TempPrefix(b) + "0");
  }

  lemma TempHasNoSlash(base: string, name: string)
    requires '/' !in base && IsTemp(base, name)
    ensures '/' !in name
  {
    TempEnd(base, name);
    var p := TempPrefix(base);
    assert '/' !in Undotted(base) && '/' !in p;
    assert name == p + name[|p|..];
  }

  function Count(s: string, c: char): nat {
    if s == "" then 0 else (if s[0] == c then 1 else 0) + Count(s[1..], c)
  }

  lemma {:induction false} CountOfConcat(a: string, b: string, c: char)
    ensures Count(a + b, c) == Count(a, c) + Count(b, c)
  {
    if a == "" {
      assert a + b == b;
    } else {
      assert (a + b)[1..] == a[1..] + b;
      CountOfConcat(a[1..], b, c);
    }
  }

  /** A name has at least the dashes of a pattern that it matches. */
  lemma {:induction false} MatchCounts(pattern: string, name: string)
    requires Match(pattern, name)
    ensures Count(pattern, '-') <= Count(name, '-')
    decreases |pattern|, |name|
  {
    if pattern != "" {
      if pattern[0] == '*' && !Match(pattern[1..], name) {
        MatchCounts(pattern, name[1..]);
      } else if pattern[0] == '*' {
        MatchCounts(pattern[1..], name);
      } else {
        MatchCounts(pattern[1..], name[1..]);
      }
    }
  }

  /** Names that Match reads as the pattern language does: no classes and no escapes. */
  predicate Classless(base: string) { '[' !in base && '\\' !in base && '/' !in base }

  /** Whatever stars and question marks the target's name has, the cleanup finds every
      temporary file that CreateTemp can have made for it, and never the target. */
  lemma GlobFindsTemps(base: string, name: string)
    requires Classless(base)
    ensures IsTemp(base, name) ==> Match(TempPattern(base), name)
    ensures !Match(TempPattern(base), base)
  {
    hide Match;
    if IsTemp(base, name) { TempMatches(base, name); }
    PatternOutcounts(base);
    if Match(TempPattern(base), base) { MatchCounts(TempPattern(base), base); }
  }

  lemma PatternOutcounts(base: string)
    ensures Count(TempPattern(base), '-') > Count(base, '-')
  {
    var u := Undotted(base);
    assert TempPattern(base) == "." + (u + (".tmp-" + "*"));
    CountOfConcat(".", u + (".tmp-" + "*"), '-');
    CountOfConcat(u, ".tmp-" + "*", '-');
    CountOfConcat(".tmp-", "*", '-');
    assert Count(".tmp-", '-') >= 1 by { CountOfConcat(".tmp", "-", '-'); assert ".tmp-" == ".tmp" + "-"; }
    if "." <= base {
      assert base == "." + u;
      CountOfConcat(".", u, '-');
    }
  }

  lemma TempMatches(base: string, name: string)
    requires '/' !in base && IsTemp(base, name)
    ensures Match(TempPattern(base), name)
  {
    hide Match;
    TempHasNoSlash(base, name);
    var p := TempPrefix(base);
    assert forall k | 0 <= k < |p| :: p[k] == name[k] && name[k] in name;
    LooseExtends(p, name[..|p|], name[|p|..]);
    assert name == name[..|p|] + name[|p|..];
  }

  /** `name` differs from `p` at most where `p` has a star or a question mark. */
  predicate Loose(p: string, name: string) {
    |p| == |name| && forall i | 0 <= i < |p| :: name[i] != '/' && (name[i] == p[i] || p[i] in {'*', '?'})
  }

  lemma {:induction false} LooseExtends(p: string, name: string, tail: string)
    requires Loose(p, name) && '/' !in tail
    ensures Match(p + "*", name + tail)
  {
    if p == "" {
      assert p + "*" == "*" && name + tail == tail;
      StarMatches(tail);
    } else {
      LooseExtends(p[1..], name[1..], tail);
      var pattern, n := p + "*", name + tail;
      assert pattern[1..] == p[1..] + "*" && pattern[0] == p[0];
      assert n[1..] == name[1..] + tail && n[0] == name[0];
      assert Match(pattern[1..], n[1..]);
      assert p[0] == '*' ==> Match(pattern, n[1..]);
    }
  }

  /** The cleanup takes exactly the names that begin like a temporary one if and only if the
      target's name has no metacharacter; otherwise it takes others, too. (Names with
      character classes or escapes are not considered.) */
  lemma GlobTakesIff(base: string)
    requires Classless(base)
    ensures (forall name | '/' !in name :: Match(TempPattern(base), name) <==> IsLeftover(base, name))
      <==> Literal(base)
  {
    hide Match;
    if Literal(base) {
      forall name | '/' !in name ensures Match(TempPattern(base), name) <==> IsLeftover(base, name) {
        GlobTakes(base, name);
      }
    } else {
      var i :| 0 <= i < |base| && base[i] in {'*', '?', '[', '\\', '/'};
      assert base[i] in base;
      StrangerFound(base, i);
    }
  }

  lemma StrangerFound(base: string, i: nat)
    requires i < |base| && base[i] in {'*', '?'} && '/' !in base
    ensures exists name :: '/' !in name && Match(TempPattern(base), name) && !IsLeftover(base, name)
  {
    hide Match;
    var p := TempPrefix(base);
    var k := |p| - 5 - |base| + i;
    assert p[k] == base[i] && '/' !in Undotted(base) && '/' !in p;
    var name := p[k := 'x'];
    assert name[k] != p[k];
    LooseExtends(p, name, "");
    assert name + "" == name;
  }

  // ---- One write, an operation at a time ----

  /** What has been written of `data` by then. */
  function Part(data: string, written: nat): (part: string)
    ensures part <= data && |part| == if written < |data| then written else |data|
  {
    if written < |data| then data[..written] else data
  }

  /** Where a write is. `Late` is a write that returns an error although the rename is done:
      the deferred removal of the temporary name failed otherwise than by not finding it. */
  datatype Write = Unopened | Filling(temp: string) | Filled(temp: string) | Written | Spoilt | Late

  /** What one operation of a write meets. An error is followed by the removal of the
      temporary file, unless that is `stuck`. */
  datatype Io = Opens(temp: string) | Fills(count: nat) | Flushes | Renames(clean: bool) | Errs(stuck: bool)

  datatype Step = Step(files: Directory, write: Write)

  function WriteAct(files: Directory, base: string, data: string, write: Write, io: Io): Option<Step> {
    match write
    case Unopened =>
      if io.Opens? && IsTemp(base, io.temp) && io.temp !in files then
        Some(Step(files[io.temp := ""], Filling(io.temp)))
      else if io.Errs? then Some(Step(files, Spoilt)) else None
    case Filling(temp) =>
      if io.Fills? then Some(Step(files[temp := Part(data, io.count)], write))
      else if io.Flushes? then Some(Step(files[temp := data], Filled(temp)))
      else if io.Errs? then Some(Step(if io.stuck then files else files - {temp}, Spoilt)) else None
    case Filled(temp) =>
      if io.Renames? && temp in files then
        Some(Step((files - {temp})[base := files[temp]], if io.clean then Written else Late))
      else if io.Errs? then Some(Step(if io.stuck then files else files - {temp}, Spoilt)) else None
    case _ => None
  }

  /** `files` is the directory `before` as the write of `data` to `base` has changed it by now. */
  ghost predicate During(before: Directory, files: Directory, base: string, data: string, write: Write) {
    match write
    case Unopened => files == before
    case Filling(temp) =>
      IsTemp(base, temp) && temp !in before && temp in files && files - {temp} == before && files[temp] <= data
    case Filled(temp) =>
      IsTemp(base, temp) && temp !in before && temp in files && files - {temp} == before && files[temp] == data
    case Written => files == before[base := data]
    case Late => files == before[base := data]
    case Spoilt => files == before || exists t | t in files :: IsTemp(base, t) && t !in before && files - {t} == before
  }

  /** After every operation, and so at every crash point, the target holds its old content or
      all of `data`, and at most one temporary file has appeared besides. */
  lemma WriteKeeps(before: Directory, files: Directory, base: string, data: string, write: Write, io: Io, r: Step)
    requires During(before, files, base, data, write) && WriteAct(files, base, data, write, io) == Some(r)
    ensures During(before, r.files, base, data, r.write)
    ensures base in r.files <==> (base in before || r.write.Written? || r.write.Late?)
    ensures base in r.files ==> r.files[base] == if r.write.Written? || r.write.Late? then data else before[base]
  {
    TargetIsNoLeftover(base);
    hide IsTemp, TempPrefix;
    assert forall t | IsTemp(base, t) :: t != base by { TempsAreNotTarget(base); }
    match write
    case Unopened =>
      if io.Opens? { assert r.files - {io.temp} == before; }
    case Filling(temp) =>
      assert r.write.Filling? || r.write.Filled? ==> r.files - {temp} == files - {temp};
      assert files - {temp} == before;
    case Filled(temp) =>
      assert r.write.Written? || r.write.Late? ==> r.files == before[base := data];
    case _ =>
  }

  lemma TempsAreNotTarget(base: string)
    ensures forall t | IsTemp(base, t) :: t != base
  {
    TargetIsNoLeftover(base);
  }

  /** CreateTemp finds a name. */
  lemma FreshTemp(files: Directory, base: string) returns (temp: string)
    ensures IsTemp(base, temp) && temp !in files
  {
    var n := LengthBound(files.Keys);
    temp := TempPrefix(base) + Zeros(n + 1);
    assert temp[|TempPrefix(base)|..] == Zeros(n + 1);
  }

  function Zeros(n: nat): (s: string)
    ensures |s| == n && Digits(s)
  {
    if n == 0 then "" else "0" + Zeros(n - 1)
  }

  lemma LengthBound(names: set<string>) returns (n: nat)
    ensures forall name | name in names :: |name| <= n
  {
    n := 0;
    var todo := names;
    while todo != {}
      invariant forall name | name in names - todo :: |name| <= n
      decreases todo
    {
      var name :| name in todo;
      todo := todo - {name};
      if |name| > n { n := |name|; }
    }
  }

  // The same without looking back

  function TempOf(write: Write): Option<string> {
    if write.Filling? || write.Filled? then Some(write.temp) else None
  }

  predicate Publishes(write: Write) { write.Written? || write.Late? }

  predicate InProgress(write: Write) { !Publishes(write) && !write.Spoilt? }

  /** What a write in progress has in its directory. */
  predicate Holding(files: Directory, base: string, data: string, write: Write) {
    && (TempOf(write).Some? ==> TempOf(write).value in files && IsTemp(base, TempOf(write).value))
    && (write.Filled? ==> files[write.temp] == data)
  }

  /** Only files that begin like a temporary one and belong to this write are there. */
  predicate OnlyTemp(files: Directory, base: string, temp: Option<string>) {
    forall t | t in files && IsLeftover(base, t) :: temp == Some(t)
  }

  /** The effect of one operation of a write on its directory. */
  lemma WriteEffect(files: Directory, base: string, data: string, write: Write, io: Io, r: Step)
    requires Holding(files, base, data, write) && WriteAct(files, base, data, write, io) == Some(r)
    ensures Holding(r.files, base, data, r.write)
    ensures Publishes(r.write) ==> base in r.files && r.files[base] == data
    ensures !Publishes(r.write) && base in files ==> base in r.files && r.files[base] == files[base]
    ensures !Publishes(r.write) && base in r.files ==> base in files
    ensures forall n | n != base && !IsTemp(base, n) :: n in r.files <==> n in files
    ensures forall n | n != base && !IsTemp(base, n) && n in files :: r.files[n] == files[n]
    ensures OnlyTemp(files, base, TempOf(write)) && !r.write.Spoilt? ==> OnlyTemp(r.files, base, TempOf(r.write))
  {
    TempsAreNotTarget(base);
    TargetIsNoLeftover(base);
    hide IsTemp, IsLeftover;
  }

  // ---- A whole write and its crash points ----

  datatype Stage = AtCreate | AtWrite | AtRename | AtReturn

  /** What the environment does to one write: nothing; an error at a stage, with the number
      of bytes written by then and whether removing the temporary file fails too; or a kill.
      After the rename only the deferred removal can fail. */
  datatype Fate =
    | Completes
    | Fails(stage: Stage, written: nat, stuck: bool)
    | Killed(stage: Stage, written: nat)

  datatype Outcome = Done | Failed | Dead

  /** Where a write ends by its fate. */
  function EndOf(temp: string, fate: Fate): (end: Write)
    ensures end.Late? <==> fate.Fails? && fate.stage == AtReturn
    ensures end.Spoilt? <==> fate.Fails? && fate.stage != AtReturn
  {
    match fate
    case Completes => Written
    case Fails(stage, _, _) => if stage == AtReturn then Late else Spoilt
    case Killed(stage, _) =>
      match stage
      case AtCreate => Unopened
      case AtWrite => Filling(temp)
      case AtRename => Filled(temp)
      case AtReturn => Written
  }

  /** The names of a directory hold no path separator. */
  ghost predicate Names(files: Directory) { forall n | n in files :: '/' !in n }

  class Folder {
    var files: Directory

    constructor (initial: Directory)
      ensures files == initial
    {
      files := initial;
    }

    /** `Write`: at every crash point the target holds its old content or all of `data`,
        and only the temporary file can remain besides. An error means that nothing was
        published, unless it is that of the deferred removal. */
    method Write(base: string, data: string, temp: string, fate: Fate) returns (outcome: Outcome)
      requires IsTemp(base, temp) && temp !in files
      modifies this
      ensures outcome == if fate.Completes? then Done else if fate.Fails? then Failed else Dead
      ensures fate.Completes? || fate.stage == AtReturn ==> files == old(files)[base := data]
      ensures !fate.Completes? && fate.stage != AtReturn ==> files - {temp} == old(files)
      ensures fate.Fails? && temp in files ==> fate.stuck
      ensures temp in files ==> files[temp] <= data
      ensures During(old(files), files, base, data, EndOf(temp, fate))
      ensures Wrote(old(files), base, Job(data, temp, fate), files)
    {
      TargetIsNoLeftover(base);
      ghost var before := files;
      if !fate.Completes? && fate.stage == AtCreate {
        assert files - {temp} == before;
        return if fate.Killed? then Dead else Failed;
      }
      files := files[temp := ""];
      if fate.Killed? && fate.stage == AtWrite {
        files := files[temp := Part(data, fate.written)];
        assert files - {temp} == before;
        return Dead;
      }
      if fate.Fails? && fate.stage in {AtWrite, AtRename} {
        files := files[temp := if fate.stage == AtWrite then Part(data, fate.written) else data];
        if !fate.stuck {
          files := files - {temp};
        }
        assert files - {temp} == before;
        return Failed;
      }
      files := files[temp := data];
      assert files - {temp} == before;
      if fate.Killed? && fate.stage == AtRename {
        return Dead;
      }
      files := (files - {temp})[base := data];
      assert files == before[base := data];
      return if fate.Killed? then Dead else if fate.Fails? then Failed else Done;
    }

    /** `RemoveLeftovers`: when it returns nil, exactly the files that the glob matches are
        gone, every temporary file of `base` among them; all other files stay, the target
        included. `stuck` are the names that the system refuses to remove. */
    method RemoveLeftovers(base: string, stuck: set<string>) returns (ok: bool)
      requires Classless(base) && Names(files)
      modifies this
      ensures ok <==> forall n | n in old(files) && Match(TempPattern(base), n) :: n !in stuck
      ensures ok ==> files == Swept(old(files), base)
      ensures forall n | n in files :: n in old(files) && files[n] == old(files)[n]
      ensures forall n | n in old(files) && !Match(TempPattern(base), n) :: n in files
      ensures base in old(files) ==> base in files
      ensures ok ==> forall n | n in files :: !Match(TempPattern(base), n) && !IsTemp(base, n)
      ensures ok && Literal(base) ==> forall n :: n in files <==> n in old(files) && !IsLeftover(base, n)
    {
      hide Match, IsTemp;
      forall n ensures IsTemp(base, n) ==> Match(TempPattern(base), n) {
        GlobFindsTemps(base, n);
      }
      GlobFindsTemps(base, base);
      if Literal(base) {
        forall n | n in files ensures Match(TempPattern(base), n) <==> IsLeftover(base, n) { GlobTakes(base, n); }
      }
      var leftovers := set n | n in files && Match(TempPattern(base), n);
      var todo := leftovers;
      while todo != {}
        invariant todo <= leftovers && (leftovers - todo) !! stuck
        invariant files == old(files) - (leftovers - todo)
        decreases todo
      {
        var leftover :| leftover in todo;
        if leftover in stuck {
          return false;
        }
        files := files - {leftover};
        todo := todo - {leftover};
      }
      return true;
    }
  }

  /** The directory after a cleanup for `base`: without what its pattern matches. */
  function Swept(files: Directory, base: string): Directory {
    map n | n in files && !Match(TempPattern(base), n) :: files[n]
  }

  // ---- Any sequence of writes ----

  datatype Job = Job(data: string, temp: string, fate: Fate)

  /** The effect of one write on its directory, whatever the outcome. */
  ghost predicate Wrote(before: Directory, base: string, job: Job, after: Directory) {
    && IsTemp(base, job.temp) && job.temp !in before
    && (after - {job.temp} == before || after == before[base := job.data])
    && (job.fate == Completes ==> after == before[base := job.data])
  }

  /** `states` are the directories between the writes of `jobs`. */
  ghost predicate Writes(states: seq<Directory>, base: string, jobs: seq<Job>) {
    && |states| == |jobs| + 1
    && forall i | 0 <= i < |jobs| :: Wrote(states[i], base, jobs[i], states[i + 1])
  }

  /** After a cleanup the target was last replaced by write `k`, or never when k is -1. */
  ghost predicate LastPublished(states: seq<Directory>, base: string, jobs: seq<Job>, k: int)
    requires |states| == |jobs| + 1
  {
    -1 <= k < |jobs| &&
    Swept(states[|jobs|], base) ==
    if k < 0 then Swept(states[0], base) else Swept(states[0], base)[base := jobs[k].data]
  }

  lemma SweptWrite(before: Directory, base: string, job: Job, after: Directory)
    requires Classless(base) && Wrote(before, base, job, after)
    ensures Swept(after, base) == Swept(before, base) || Swept(after, base) == Swept(before, base)[base := job.data]
    ensures job.fate == Completes ==> Swept(after, base) == Swept(before, base)[base := job.data]
  {
    hide IsTemp, Match;
    GlobFindsTemps(base, job.temp);
    if after - {job.temp} == before {
      assert forall n | n in before :: n in after - {job.temp} && (after - {job.temp})[n] == after[n];
      assert forall n | n in after && n != job.temp :: n in after - {job.temp};
      assert Swept(after, base) == Swept(before, base);
    }
  }

  /** Writes alone change nothing but the target and its temporary names. */
  lemma {:induction false} WritesKeepOthers(states: seq<Directory>, base: string, jobs: seq<Job>, name: string)
    requires Writes(states, base, jobs) && name != base && !IsTemp(base, name)
    ensures name in states[|jobs|] <==> name in states[0]
    ensures name in states[0] ==> states[|jobs|][name] == states[0][name]
  {
    hide IsTemp;
    if jobs != [] {
      var n := |jobs| - 1;
      assert Writes(states[..n + 1], base, jobs[..n]);
      WritesKeepOthers(states[..n + 1], base, jobs[..n], name);
      assert Wrote(states[n], base, jobs[n], states[n + 1]);
      WriteKeepsOther(states[n], base, jobs[n], states[n + 1], name);
    }
  }

  lemma WriteKeepsOther(before: Directory, base: string, job: Job, after: Directory, name: string)
    requires Wrote(before, base, job, after) && name != base && !IsTemp(base, name)
    ensures name in after <==> name in before
    ensures name in before ==> after[name] == before[name]
  {
    hide IsTemp;
    assert name != job.temp;
    if after - {job.temp} == before {
      assert name in after <==> name in after - {job.temp};
      assert name in before ==> (after - {job.temp})[name] == after[name];
    }
  }

  /** After any sequence of completed, failed and killed writes and one cleanup, the target
      has the data of one write, not older than the last one that returned nil, and the other
      files are the original ones that the cleanup's pattern does not match. */
  lemma {:induction false} WritesThenCleanup(states: seq<Directory>, base: string, jobs: seq<Job>) returns (k: int)
    requires Classless(base) && Writes(states, base, jobs)
    ensures LastPublished(states, base, jobs, k)
    ensures forall i | k < i < |jobs| :: jobs[i].fate != Completes
  {
    hide IsTemp, Match;
    if jobs == [] {
      return -1;
    }
    var n := |jobs| - 1;
    assert Writes(states[..n + 1], base, jobs[..n]);
    k := WritesThenCleanup(states[..n + 1], base, jobs[..n]);
    assert Wrote(states[n], base, jobs[n], states[n + 1]);
    SweptWrite(states[n], base, jobs[n], states[n + 1]);
    assert states[..n + 1][n] == states[n];
    if Swept(states[n + 1], base) == Swept(states[n], base)[base := jobs[n].data] {
      k := n;
    }
  }
}
