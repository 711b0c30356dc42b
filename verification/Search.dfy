/**
 Searching the shared folders (`search` and `isShareableName` in
 src/transfer/laptop-browser.ts): a breadth-first walk with a queue, a limit on
 entries, a limit on matches and a deadline.
 */
module Search {
  import opened Wrappers
  import opened TransferFile
  import Paths

  /** What `readdir` lists: `listed` is false when reading the folder fails, `known` when `stat` does. */
  datatype Node =
    | File(name: string, known: bool)
    | Folder(name: string, known: bool, listed: bool, children: seq<Node>)
    | Other(name: string)

  /** A folder waiting in the queue and the path that leads to it. */
  datatype Pending = Pending(root: string, segments: seq<string>, folder: Node)

  datatype Match = Match(root: string, path: seq<string>, isFolder: bool)

  /** UTF-8 length of one character. */
  function Bytes(c: char): nat {
    if c < '\U{80}' then 1 else if c < '\U{800}' then 2 else if c < '\U{10000}' then 3 else 4
  }

  function ByteLength(name: string): nat {
    if name == "" then 0 else Bytes(name[0]) + ByteLength(name[1..])
  }

  predicate IsShareableName(name: string) {
    && |name| > 0 && name[0] != '.'
    && ByteLength(name) <= 255
    && forall i :: 0 <= i < |name| ==> '\U{20}' <= name[i] != '\U{7f}' && name[i] != '\\' && name[i] != '/'
  }

  predicate IncludesAt(text: string, word: string, i: nat) {
    i + |word| <= |text| && text[i..i + |word|] == word
  }

  /** `includes` */
  predicate Includes(text: string, word: string) {
    exists i :: 0 <= i <= |text| && IncludesAt(text, word, i)
  }

  /** What is searched for: the words of the query, and the lower-casing they are compared under. */
  datatype Query = Query(words: seq<string>, lower: string -> string)

  predicate Wanted(q: Query, name: string) {
    forall i :: 0 <= i < |q.words| ==> Includes(q.lower(name), q.words[i])
  }

  // ----- what there is to find -----------------------------------------------

  predicate Eligible(n: Node) {
    !n.Other? && IsShareableName(n.name)
  }

  function MatchOf(root: string, segments: seq<string>, n: Node): Match {
    Match(root, segments + [n.name], n.Folder?)
  }

  /** An entry's own match, if it is one. */
  function Own(q: Query, root: string, segments: seq<string>, n: Node): multiset<Match> {
    if Eligible(n) && Wanted(q, n.name) && n.known then multiset{MatchOf(root, segments, n)} else multiset{}
  }

  /** Every wanted entry below a folder, at any depth, by recursion on the tree. */
  function Below(q: Query, root: string, segments: seq<string>, folder: Node): multiset<Match>
    decreases folder
  {
    if folder.Folder? && folder.listed then BelowAll(q, root, segments, folder.children) else multiset{}
  }

  function BelowAll(q: Query, root: string, segments: seq<string>, children: seq<Node>): multiset<Match>
    decreases children
  {
    if children == [] then multiset{}
    else
      var n := children[0];
      Own(q, root, segments, n)
      + (if Eligible(n) && n.Folder? then Below(q, root, segments + [n.name], n) else multiset{})
      + BelowAll(q, root, segments, children[1..])
  }

  function Expected(q: Query, queue: seq<Pending>): multiset<Match> {
    if queue == [] then multiset{}
    else Below(q, queue[0].root, queue[0].segments, queue[0].folder) + Expected(q, queue[1..])
  }

  lemma {:induction false} ExpectedAppend(q: Query, queue: seq<Pending>, p: Pending)
    ensures Expected(q, queue + [p]) == Expected(q, queue) + Below(q, p.root, p.segments, p.folder)
  {
    if queue == [] {
      assert Expected(q, [p][1..]) == multiset{};
      assert [] + [p] == [p];
    } else {
      assert (queue + [p])[0] == queue[0] && (queue + [p])[1..] == queue[1..] + [p];
      ExpectedAppend(q, queue[1..], p);
    }
  }

  /** Everything below a folder lies deeper than the folder. */
  lemma {:induction false} BelowIsDeeper(q: Query, root: string, segments: seq<string>, folder: Node, m: Match)
    requires m in Below(q, root, segments, folder)
    ensures |m.path| > |segments|
    decreases folder
  {
    BelowAllIsDeeper(q, root, segments, folder.children, m);
  }

  lemma {:induction false} BelowAllIsDeeper(q: Query, root: string, segments: seq<string>, children: seq<Node>, m: Match)
    requires m in BelowAll(q, root, segments, children)
    ensures |m.path| > |segments|
    decreases children
  {
    var n := children[0];
    if m in BelowAll(q, root, segments, children[1..]) {
      BelowAllIsDeeper(q, root, segments, children[1..], m);
    } else if m !in Own(q, root, segments, n) {
      BelowIsDeeper(q, root, segments + [n.name], n, m);
    }
  }

  /** The queue, in order of depth and spanning two levels at most from `least`. */
  predicate Layered(queue: seq<Pending>, least: nat) {
    && (forall i :: 0 <= i < |queue| ==> least <= |queue[i].segments| <= least + 1)
    && (forall i, j :: 0 <= i < j < |queue| ==> |queue[i].segments| <= |queue[j].segments|)
  }

  lemma {:induction false} ExpectedIsDeeper(q: Query, queue: seq<Pending>, least: nat, m: Match)
    requires (forall i :: 0 <= i < |queue| ==> least <= |queue[i].segments|) && m in Expected(q, queue)
    ensures |m.path| > least
  {
    var p := queue[0];
    if m in Below(q, p.root, p.segments, p.folder) {
      BelowIsDeeper(q, p.root, p.segments, p.folder, m);
    } else {
      ExpectedIsDeeper(q, queue[1..], least, m);
    }
  }

  // ----- the same, by paths ----------------------------------------------------

  /** `steps` picks a child at each level, every one of them shareable and every folder on the way readable. */
  predicate Leads(folder: Node, steps: seq<nat>)
    decreases |steps|
  {
    && steps != [] && folder.Folder? && folder.listed && steps[0] < |folder.children|
    && Eligible(folder.children[steps[0]])
    && (|steps| == 1 || Leads(folder.children[steps[0]], steps[1..]))
  }

  function Target(folder: Node, steps: seq<nat>): Node
    requires Leads(folder, steps)
    decreases |steps|
  {
    var n := folder.children[steps[0]];
    if |steps| == 1 then n else Target(n, steps[1..])
  }

  function Names(folder: Node, steps: seq<nat>): seq<string>
    requires Leads(folder, steps)
    decreases |steps|
  {
    var n := folder.children[steps[0]];
    if |steps| == 1 then [n.name] else [n.name] + Names(n, steps[1..])
  }

  /** The entry `steps` lead to is a match, and `m` is it. */
  predicate Reaches(q: Query, root: string, segments: seq<string>, folder: Node, steps: seq<nat>, m: Match) {
    && Leads(folder, steps)
    && Wanted(q, Target(folder, steps).name) && !Target(folder, steps).Other? && Target(folder, steps).known
    && m == Match(root, segments + Names(folder, steps), Target(folder, steps).Folder?)
  }

  lemma {:induction false} FoundIsReachable(q: Query, root: string, segments: seq<string>, folder: Node, m: Match)
    returns (steps: seq<nat>)
    requires m in Below(q, root, segments, folder)
    ensures Reaches(q, root, segments, folder, steps, m)
    decreases folder
  {
    var k := FoundAmong(q, root, segments, folder.children, m);
    var n := folder.children[k];
    if m in Own(q, root, segments, n) {
      steps := [k];
    } else {
      var rest := FoundIsReachable(q, root, segments + [n.name], n, m);
      steps := [k] + rest;
      assert steps[1..] == rest;
      assert segments + [n.name] + Names(n, rest) == segments + Names(folder, steps);
    }
  }

  lemma {:induction false} FoundAmong(q: Query, root: string, segments: seq<string>, children: seq<Node>, m: Match)
    returns (k: nat)
    requires m in BelowAll(q, root, segments, children)
    ensures k < |children|
    ensures m in Own(q, root, segments, children[k])
            || (Eligible(children[k]) && children[k].Folder? && m in Below(q, root, segments + [children[k].name], children[k]))
  {
    if m in BelowAll(q, root, segments, children[1..]) {
      var j := FoundAmong(q, root, segments, children[1..], m);
      k := j + 1;
    } else {
      k := 0;
    }
  }

  lemma {:induction false} ReachableIsFound(q: Query, root: string, segments: seq<string>, folder: Node, steps: seq<nat>, m: Match)
    requires Reaches(q, root, segments, folder, steps, m)
    ensures m in Below(q, root, segments, folder)
    decreases |steps|
  {
    var k := steps[0];
    var n := folder.children[k];
    if |steps| > 1 {
      assert segments + [n.name] + Names(n, steps[1..]) == segments + Names(folder, steps);
      ReachableIsFound(q, root, segments + [n.name], n, steps[1..], m);
    }
    AmongIsFound(q, root, segments, folder.children, k, m);
  }

  lemma {:induction false} AmongIsFound(q: Query, root: string, segments: seq<string>, children: seq<Node>, k: nat, m: Match)
    requires k < |children|
    requires m in Own(q, root, segments, children[k])
             || (Eligible(children[k]) && children[k].Folder? && m in Below(q, root, segments + [children[k].name], children[k]))
    ensures m in BelowAll(q, root, segments, children)
  {
    if k > 0 {
      AmongIsFound(q, root, segments, children[1..], k - 1, m);
    }
  }

  /** What is expected below a folder is exactly what some path of shareable names leads to. */
  lemma {:induction false} BelowIsWhatPathsReach(q: Query, root: string, segments: seq<string>, folder: Node, m: Match)
    ensures m in Below(q, root, segments, folder) <==> exists steps :: Reaches(q, root, segments, folder, steps, m)
  {
    if m in Below(q, root, segments, folder) {
      var steps := FoundIsReachable(q, root, segments, folder, m);
      assert Reaches(q, root, segments, folder, steps, m);
    }
    if exists steps :: Reaches(q, root, segments, folder, steps, m) {
      var steps :| Reaches(q, root, segments, folder, steps, m);
      ReachableIsFound(q, root, segments, folder, steps, m);
    }
  }

  /** What may be in a name that is shared: it is not hidden, holds no control character and no separator. */
  predicate Plain(name: string) {
    && name != "" && name[0] != '.' && |name| <= 255
    && forall c :: c in name ==> ' ' <= c && c != '\U{7f}' && c != '/' && c != '\\'
  }

  lemma {:induction false} ByteLengthIs(name: string)
    ensures |name| <= ByteLength(name) <= 4 * |name|
    ensures (forall c :: c in name ==> c < '\U{80}') ==> ByteLength(name) == |name|
  {
    if name != "" {
      assert forall c :: c in name[1..] ==> c in name;
      assert name[0] in name;
      ByteLengthIs(name[1..]);
    }
  }

  lemma {:induction false} ShareableIsPlain(name: string)
    ensures IsShareableName(name) ==> Plain(name) && ByteLength(name) <= 255
    ensures Plain(name) && (forall c :: c in name ==> c < '\U{80}') ==> IsShareableName(name)
  {
    ByteLengthIs(name);
    if Plain(name) {
      forall i | 0 <= i < |name|
        ensures '\U{20}' <= name[i] != '\U{7f}' && name[i] != '\\' && name[i] != '/'
      {
        assert name[i] in name;
      }
    }
  }

  /** Nothing hidden is found: every name on the way to a match, below where the search began, is plain. */
  lemma {:induction false} HiddenStaysOut(q: Query, root: string, segments: seq<string>, folder: Node, m: Match)
    requires m in Below(q, root, segments, folder)
    ensures segments <= m.path && forall k :: |segments| <= k < |m.path| ==> Plain(m.path[k])
  {
    var steps := FoundIsReachable(q, root, segments, folder, m);
    NamesArePlain(folder, steps);
  }

  lemma {:induction false} NamesArePlain(folder: Node, steps: seq<nat>)
    requires Leads(folder, steps)
    ensures forall k :: 0 <= k < |Names(folder, steps)| ==> Plain(Names(folder, steps)[k])
    decreases |steps|
  {
    var n := folder.children[steps[0]];
    ShareableIsPlain(n.name);
    if |steps| > 1 {
      NamesArePlain(n, steps[1..]);
    }
  }

  /** The partial of an upload under way is hidden, so no search finds it. */
  lemma PartialsAreNotShared(destination: Path, fileId: string)
    ensures !IsShareableName(Paths.PartialPathFor(destination, fileId).name)
  {
    Paths.PartialIsHiddenBeside(destination, fileId);
  }

  // ----- the walk --------------------------------------------------------------

  function Size(n: Node): nat
    decreases n
  {
    if n.Folder? then 1 + SizeAll(n.children) else 1
  }

  function SizeAll(children: seq<Node>): nat
    decreases children
  {
    if children == [] then 0 else Size(children[0]) + SizeAll(children[1..])
  }

  function Work(queue: seq<Pending>): nat {
    if queue == [] then 0 else Size(queue[0].folder) + Work(queue[1..])
  }

  lemma {:induction false} WorkAppend(queue: seq<Pending>, p: Pending)
    ensures Work(queue + [p]) == Work(queue) + Size(p.folder)
  {
    if queue == [] {
      assert Work([p][1..]) == 0;
      assert [] + [p] == [p];
    } else {
      assert (queue + [p])[0] == queue[0] && (queue + [p])[1..] == queue[1..] + [p];
      WorkAppend(queue[1..], p);
    }
  }

  predicate Shallow(matches: seq<Match>, depth: nat) {
    && (forall i :: 0 <= i < |matches| ==> |matches[i].path| <= depth)
    && (forall i, j :: 0 <= i < j < |matches| ==> |matches[i].path| <= |matches[j].path|)
  }

  /** What one search may do: its limits, and whether the deadline has passed when entry `n` is reached. */
  datatype Limits = Limits(late: nat -> bool, maxVisited: nat, maxMatches: nat)

  /** The walk has run into one of its limits. */
  predicate AtLimit(l: Limits, visited: nat, matches: seq<Match>) {
    visited >= l.maxVisited || l.late(visited) || |matches| >= l.maxMatches
  }

  function ChildOf(p: Pending, n: Node): Pending {
    Pending(p.root, p.segments + [n.name], n)
  }

  /** One entry of a listing: queued if it is a folder, matched if it is wanted, unless a limit stops the walk. */
  method TakeEntry(q: Query, l: Limits, p: Pending, n: Node, queue: seq<Pending>, matches: seq<Match>, visited: nat)
    returns (longer: seq<Pending>, more: seq<Match>, count: nat, stop: bool)
    requires visited <= l.maxVisited && |matches| <= l.maxMatches
    ensures count <= l.maxVisited && |more| <= l.maxMatches
    ensures stop ==> more == matches && AtLimit(l, count, more)
    ensures !stop ==> longer == Queued(p, n, queue) && more == Matched(q, p, n, matches)
    ensures stop <==> Eligible(n) && (visited >= l.maxVisited || l.late(visited)
                                      || (Wanted(q, n.name) && |matches| >= l.maxMatches))
    ensures !stop ==> count == if Eligible(n) then visited + 1 else visited
  {
    longer, more, count, stop := queue, matches, visited, false;
    if n.Other? || !IsShareableName(n.name) {
      return;
    }
    if count >= l.maxVisited || l.late(count) {
      stop := true;
      return;
    }
    count := count + 1;
    if n.Folder? {
      longer := longer + [ChildOf(p, n)];
    }
    if !Wanted(q, n.name) {
      return;
    }
    if |more| >= l.maxMatches {
      stop := true;
      return;
    }
    if n.known {
      more := more + [MatchOf(p.root, p.segments, n)];
    }
  }

  lemma Regroup<T>(a: multiset<T>, own: multiset<T>, nested: multiset<T>, rest: multiset<T>, tail: multiset<T>)
    ensures (a + own) + rest + (tail + nested) == a + (own + nested + rest) + tail
  {
  }

  function Queued(p: Pending, n: Node, queue: seq<Pending>): seq<Pending> {
    queue + (if Eligible(n) && n.Folder? then [ChildOf(p, n)] else [])
  }

  function Matched(q: Query, p: Pending, n: Node, matches: seq<Match>): seq<Match> {
    matches + (if Eligible(n) && Wanted(q, n.name) && n.known then [MatchOf(p.root, p.segments, n)] else [])
  }

  function Nested(q: Query, p: Pending, n: Node): multiset<Match> {
    if Eligible(n) && n.Folder? then Below(q, p.root, p.segments + [n.name], n) else multiset{}
  }

  lemma {:induction false} QueuedGrows(q: Query, p: Pending, n: Node, tail: seq<Pending>)
    ensures Expected(q, Queued(p, n, tail)) == Expected(q, tail) + Nested(q, p, n)
    ensures Work(Queued(p, n, tail)) <= Work(tail) + Size(n)
  {
    if Eligible(n) && n.Folder? {
      ExpectedAppend(q, tail, ChildOf(p, n));
      WorkAppend(tail, ChildOf(p, n));
    } else {
      assert tail + [] == tail;
    }
  }

  lemma {:induction false} MatchedGrows(q: Query, p: Pending, n: Node, matches: seq<Match>)
    ensures multiset(Matched(q, p, n, matches)) == multiset(matches) + Own(q, p.root, p.segments, n)
  {
  }

  /** One more entry taken: what is found, what is queued and what is still listed together stay the same. */
  lemma {:induction false} EntryConserves(q: Query, p: Pending, children: seq<Node>, tail: seq<Pending>, matches: seq<Match>)
    requires children != []
    ensures multiset(Matched(q, p, children[0], matches)) + BelowAll(q, p.root, p.segments, children[1..])
            + Expected(q, Queued(p, children[0], tail))
            == multiset(matches) + BelowAll(q, p.root, p.segments, children) + Expected(q, tail)
  {
    var n := children[0];
    MatchedGrows(q, p, n, matches);
    QueuedGrows(q, p, n, tail);
    Regroup(multiset(matches), Own(q, p.root, p.segments, n), Nested(q, p, n),
            BelowAll(q, p.root, p.segments, children[1..]), Expected(q, tail));
  }

  lemma {:induction false} EntryKeepsOrder(q: Query, p: Pending, n: Node, tail: seq<Pending>, matches: seq<Match>)
    requires Layered(tail, |p.segments|) && Shallow(matches, |p.segments| + 1)
    ensures Layered(Queued(p, n, tail), |p.segments|) && Shallow(Matched(q, p, n, matches), |p.segments| + 1)
  {
  }

  /** What is still to come is no shallower than what is there. */
  ghost predicate Deeper(missed: multiset<Match>, matches: seq<Match>) {
    forall m, i :: m in missed && 0 <= i < |matches| ==> |matches[i].path| <= |m.path|
  }

  lemma {:induction false} RestIsDeeper(q: Query, p: Pending, children: seq<Node>, tail: seq<Pending>, matches: seq<Match>)
    requires Layered(tail, |p.segments|) && Shallow(matches, |p.segments| + 1)
    ensures Deeper(BelowAll(q, p.root, p.segments, children) + Expected(q, tail), matches)
  {
    forall m | m in BelowAll(q, p.root, p.segments, children) + Expected(q, tail)
      ensures |m.path| > |p.segments|
    {
      if m in BelowAll(q, p.root, p.segments, children) {
        BelowAllIsDeeper(q, p.root, p.segments, children, m);
      } else {
        ExpectedIsDeeper(q, tail, |p.segments|, m);
      }
    }
  }

  /** The walk inside one folder: `left` is what its listing still holds, `tail` what is queued behind it. */
  ghost predicate Walking(q: Query, p: Pending, left: seq<Node>, tail: seq<Pending>, matches: seq<Match>,
                          total: multiset<Match>, work: nat)
  {
    && Layered(tail, |p.segments|) && Shallow(matches, |p.segments| + 1)
    && multiset(matches) + BelowAll(q, p.root, p.segments, left) + Expected(q, tail) == total
    && Work(tail) + SizeAll(left) <= work
  }

  lemma {:induction false} WalkOn(q: Query, p: Pending, left: seq<Node>, tail: seq<Pending>, matches: seq<Match>, total: multiset<Match>, work: nat)
    requires Walking(q, p, left, tail, matches, total, work) && left != []
    ensures Walking(q, p, left[1..], Queued(p, left[0], tail), Matched(q, p, left[0], matches), total, work)
  {
    EntryConserves(q, p, left, tail, matches);
    EntryKeepsOrder(q, p, left[0], tail, matches);
    QueuedGrows(q, p, left[0], tail);
  }

  lemma {:induction false} NextEntry(q: Query, p: Pending, children: seq<Node>, j: nat, queue: seq<Pending>, next: nat, matches: seq<Match>,
                  total: multiset<Match>, work: nat)
    requires j < |children| && next < |queue|
    requires Walking(q, p, children[j..], queue[next + 1..], matches, total, work)
    ensures Walking(q, p, children[j + 1..], Queued(p, children[j], queue)[next + 1..],
                    Matched(q, p, children[j], matches), total, work)
  {
    WalkOn(q, p, children[j..], queue[next + 1..], matches, total, work);
    assert children[j..][0] == children[j] && children[j..][1..] == children[j + 1..];
    assert Queued(p, children[j], queue)[next + 1..] == Queued(p, children[j], queue[next + 1..]);
  }

  /** A limit may stop the walk at any entry: the rest is what is missed. */
  lemma {:induction false} StopHere(q: Query, p: Pending, left: seq<Node>, tail: seq<Pending>, matches: seq<Match>, total: multiset<Match>, work: nat)
    requires Walking(q, p, left, tail, matches, total, work)
    ensures var missed := BelowAll(q, p.root, p.segments, left) + Expected(q, tail);
            multiset(matches) + missed == total && Deeper(missed, matches)
  {
    RestIsDeeper(q, p, left, tail, matches);
  }

  /** The walk between two folders: `queue` is what is still to be listed. */
  ghost predicate Between(q: Query, queue: seq<Pending>, matches: seq<Match>, total: multiset<Match>, level: nat) {
    && Layered(queue, level) && Shallow(matches, level + 1)
    && multiset(matches) + Expected(q, queue) == total
  }

  predicate IsListed(n: Node) {
    n.Folder? && n.listed
  }

  lemma {:induction false} Enter(q: Query, queue: seq<Pending>, matches: seq<Match>, total: multiset<Match>, level: nat)
    requires Between(q, queue, matches, total, level) && queue != []
    ensures var p, tail := queue[0], queue[1..];
            if IsListed(p.folder) then
              Walking(q, p, p.folder.children, tail, matches, total, Work(queue) - 1)
            else
              Between(q, tail, matches, total, |p.segments|) && Work(tail) < Work(queue)
  {
  }

  lemma {:induction false} LeaveFolder(q: Query, p: Pending, tail: seq<Pending>, matches: seq<Match>, total: multiset<Match>, work: nat)
    requires Walking(q, p, [], tail, matches, total, work)
    ensures Between(q, tail, matches, total, |p.segments|) && Work(tail) <= work
  {
  }

  lemma {:induction false} Finish(q: Query, matches: seq<Match>, total: multiset<Match>, level: nat)
    requires Between(q, [], matches, total, level)
    ensures multiset(matches) == total
  {
  }

  /** All entries of the folder at the head of the queue. */
  method SearchOne(q: Query, l: Limits, start: seq<Pending>, next: nat, found: seq<Match>, seen: nat,
                   ghost total: multiset<Match>, ghost work: nat)
    returns (queue: seq<Pending>, matches: seq<Match>, visited: nat, stop: bool, ghost missed: multiset<Match>)
    requires next < |start| && seen <= l.maxVisited && |found| <= l.maxMatches && IsListed(start[next].folder)
    requires Walking(q, start[next], start[next].folder.children, start[next + 1..], found, total, work)
    ensures visited <= l.maxVisited && |matches| <= l.maxMatches && next < |queue|
    ensures Shallow(matches, |start[next].segments| + 1)
    ensures stop ==> Deeper(missed, matches) && multiset(matches) + missed == total
    ensures stop ==> AtLimit(l, visited, matches)
    ensures !stop ==> Walking(q, start[next], [], queue[next + 1..], matches, total, work)
  {
    queue, matches, visited, stop, missed := start, found, seen, false, multiset{};
    var p := queue[next];
    var children := p.folder.children;
    var j := 0;
    assert children[0..] == children;
    while j < |children|
      invariant 0 <= j <= |children| && next < |queue|
      invariant visited <= l.maxVisited && |matches| <= l.maxMatches
      invariant Walking(q, p, children[j..], queue[next + 1..], matches, total, work)
    {
      var longer, more, count, full := TakeEntry(q, l, p, children[j], queue, matches, visited);
      if full {
        missed := BelowAll(q, p.root, p.segments, children[j..]) + Expected(q, queue[next + 1..]);
        StopHere(q, p, children[j..], queue[next + 1..], matches, total, work);
        visited, stop := count, true;
        return;
      }
      NextEntry(q, p, children, j, queue, next, matches, total, work);
      queue, matches, visited := longer, more, count;
      j := j + 1;
    }
    assert children[j..] == [];
  }

  /**
   The search.  What it misses is nothing unless it says so, and is never
   shallower than anything it found.
   */
  method SearchFolders(q: Query, l: Limits, start: seq<Pending>, depth: nat)
    returns (matches: seq<Match>, truncated: bool, visited: nat, ghost missed: multiset<Match>)
    requires forall i :: 0 <= i < |start| ==> |start[i].segments| == depth
    ensures multiset(matches) + missed == Expected(q, start)
    ensures !truncated ==> multiset(matches) == Expected(q, start)
    ensures truncated ==> AtLimit(l, visited, matches)
    ensures Deeper(missed, matches)
    ensures forall i, j :: 0 <= i < j < |matches| ==> |matches[i].path| <= |matches[j].path|
    ensures visited <= l.maxVisited && |matches| <= l.maxMatches
  {
    var queue := start;
    matches, visited, truncated, missed := [], 0, false, multiset{};
    var next := 0;
    ghost var level: nat := depth;
    ghost var total := Expected(q, start);
    assert start[0..] == start;
    while next < |queue|
      invariant 0 <= next <= |queue| && visited <= l.maxVisited && |matches| <= l.maxMatches
      invariant Between(q, queue[next..], matches, total, level)
      invariant missed == multiset{}
      decreases Work(queue[next..])
    {
      var p := queue[next];
      assert queue[next..][0] == p && queue[next..][1..] == queue[next + 1..];
      Enter(q, queue[next..], matches, total, level);
      if IsListed(p.folder) {
        ghost var work := Work(queue[next..]) - 1;
        queue, matches, visited, truncated, missed := SearchOne(q, l, queue, next, matches, visited, total, work);
        if truncated {
          return;
        }
        LeaveFolder(q, p, queue[next + 1..], matches, total, work);
        missed := multiset{};
      }
      level := |p.segments|;
      next := next + 1;
    }
    assert queue[next..] == [];
    Finish(q, matches, total, level);
  }
}
