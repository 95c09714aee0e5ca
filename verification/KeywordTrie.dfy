/**
 The keyword tree of the audit log parser (src/modules/mod_auditd.c): a tree of nodes
 with one link per byte, grown in place, against a search through the table.
 */
module KeywordTrie {
  import opened Options

  type Byte = b: int | 0 <= b < 256

  type Word = seq<Byte>

  /** What the parser does for a keyword. */
  datatype Action = Action(code: int, evtno: int)

  type Table = map<Word, Action>

  // ----- keywords -----

  /** w starts with p. */
  predicate Starts(p: Word, w: Word) { p <= w }

  ghost predicate SomeStarts(table: Table, p: Word) { exists w :: w in table && Starts(p, w) }

  /** No keyword is the beginning of another, and none is empty. */
  ghost predicate PrefixFree(table: Table) {
    [] !in table && forall v, w :: v in table && w in table && Starts(v, w) ==> v == w
  }

  /** word is a new keyword. */
  ghost predicate Joins(table: Table, word: Word) {
    word != [] && forall v :: v in table ==> !Starts(v, word) && !Starts(word, v)
  }

  function Then(p: Word, b: Byte): Word { p + [b] }

  lemma ThenInjective(p: Word, c: Byte)
    ensures forall q, b {:trigger Then(q, b)} :: Then(q, b) == Then(p, c) ==> q == p && b == c
    ensures forall b {:trigger Then(Then(p, c), b)} :: Then(Then(p, c), b) != Then(p, c)
  {
    forall q, b | Then(q, b) == Then(p, c) ensures q == p && b == c {
      assert Then(q, b)[|q|] == b && Then(p, c)[|p|] == c;
      assert Then(q, b)[..|q|] == q && Then(p, c)[..|p|] == p;
    }
    forall b ensures Then(Then(p, c), b) != Then(p, c) {
      assert |Then(Then(p, c), b)| == |Then(p, c)| + 1;
    }
  }

  /** The paths are the beginnings of the keywords, and of the first k bytes of word. */
  ghost predicate Paths(paths: set<Word>, table: Table, word: Word, k: nat) {
    forall p :: p in paths <==> p == [] || SomeStarts(table, p) || (|p| <= k && Starts(p, word))
  }

  lemma PathsStart(paths: set<Word>, table: Table, word: Word)
    requires Paths(paths, table, [], 0)
    ensures Paths(paths, table, word, 0)
  {
  }

  lemma PathsNext(paths: set<Word>, table: Table, word: Word, k: nat)
    requires Paths(paths, table, word, k) && k < |word|
    ensures Paths(paths + {word[..k + 1]}, table, word, k + 1)
  {
    forall p | |p| <= k + 1 && Starts(p, word) ensures |p| <= k || p == word[..k + 1] {
    }
  }

  lemma PathsJoin(paths: set<Word>, table: Table, word: Word, action: Action)
    requires Paths(paths, table, word, |word|)
    ensures Paths(paths, table[word := action], [], 0)
  {
    var table' := table[word := action];
    forall p ensures SomeStarts(table', p) <==> SomeStarts(table, p) || Starts(p, word) {
      assert word in table';
      if SomeStarts(table, p) {
        var w :| w in table && Starts(p, w);
        assert w in table';
      }
    }
  }

  lemma Joined(table: Table, word: Word, action: Action)
    requires PrefixFree(table) && Joins(table, word)
    ensures PrefixFree(table[word := action])
  {
  }

  // ----- what the parser must recognise -----

  /** What starts at a position: a keyword that ends before next; bytes that no keyword
      starts with, the last of them before next; or the text ends. */
  datatype Match = Keyword(action: Action, next: nat) | Foiled(next: nat) | Exhausted

  /** A search through the table, byte by byte. */
  ghost function Scan(table: Table, text: Word, pos: nat, k: nat): Match
    requires pos <= k <= |text|
    decreases |text| - k
  {
    if k == |text| then Exhausted
    else
      var p := text[pos..k + 1];
      if p in table then Keyword(table[p], k + 1)
      else if SomeStarts(table, p) then Scan(table, text, pos, k + 1)
      else Foiled(k + 1)
  }

  /** A word is recognised, as a whole and with its action, if and only if it is in the
      table. */
  lemma WordFound(table: Table, word: Word, action: Action)
    requires PrefixFree(table) && word != []
    ensures Scan(table, word, 0, 0) == Keyword(action, |word|) <==> word in table && table[word] == action
  {
    WordFoundFrom(table, word, action, 0);
  }

  lemma {:induction false} WordFoundFrom(table: Table, word: Word, action: Action, k: nat)
    requires PrefixFree(table) && k < |word| && forall i :: 0 < i <= k ==> word[..i] !in table
    ensures Scan(table, word, 0, k) == Keyword(action, |word|) <==> word in table && table[word] == action
    decreases |word| - k
  {
    var p := word[0..k + 1];
    assert p == word[..k + 1] && Starts(p, word);
    if k + 1 < |word| {
      if p !in table && SomeStarts(table, p) {
        WordFoundFrom(table, word, action, k + 1);
      }
    } else {
      assert p == word;
      if p !in table && SomeStarts(table, p) {
        assert Scan(table, word, 0, k + 1) == Exhausted;
      }
    }
  }

  lemma ScanEnd(table: Table, text: Word, pos: nat)
    requires pos <= |text|
    ensures Scan(table, text, pos, |text|) == Exhausted
  {
  }

  lemma ScanStep(table: Table, text: Word, pos: nat, k: nat)
    requires pos <= k < |text|
    ensures var q := text[pos..k + 1];
            && q == Then(text[pos..k], text[k])
            && Scan(table, text, pos, k) == if q in table then Keyword(table[q], k + 1)
                                            else if SomeStarts(table, q) then Scan(table, text, pos, k + 1)
                                            else Foiled(k + 1)
  {
  }

  predicate Space(c: Byte) { c == 32 || 9 <= c <= 13 }

  /** The actions that a text calls for, each with the position behind its keyword; doer
      gives the position behind the value. */
  ghost function Parse(table: Table, text: Word, doer: (Action, nat) -> nat, pos: nat): seq<(Action, nat)>
    requires pos <= |text| && forall a, i: nat :: i <= |text| ==> i <= doer(a, i) <= |text|
    decreases |text| - pos
  {
    if pos == |text| then []
    else if Space(text[pos]) then Parse(table, text, doer, pos + 1)
    else
      ScanMoves(table, text, pos, pos);
      match Scan(table, text, pos, pos)
      case Keyword(action, next) => [(action, next)] + Parse(table, text, doer, doer(action, next))
      case Foiled(next) => Parse(table, text, doer, next)
      case Exhausted => []
  }

  lemma {:induction false} ScanMoves(table: Table, text: Word, pos: nat, k: nat)
    requires pos <= k <= |text|
    ensures match Scan(table, text, pos, k)
            case Exhausted => true
            case Keyword(_, next) => k < next <= |text|
            case Foiled(next) => k < next <= |text|
    decreases |text| - k
  {
    if k < |text| && text[pos..k + 1] !in table && SomeStarts(table, text[pos..k + 1]) {
      ScanMoves(table, text, pos, k + 1);
    }
  }

  // ----- the tree -----

  /** struct action_tree; path is the way from the root to the node. */
  class Node {
    var end: Option<Action>
    var proceed: map<Byte, Node>
    ghost var path: Word

    constructor (e: Option<Action>, ghost p: Word)
      ensures end == e && proceed == map[] && path == p
    {
      end, proceed, path := e, map[], p;
    }
  }

  class ActionTree {
    var root: Node
    ghost var nodes: map<Word, Node>
    ghost var table: Table

    /** The node at the end of path p: its links are the longer paths, and it is an end
        node if p is a keyword. */
    ghost predicate NodeAt(p: Word)
      reads this, set q | q in nodes :: nodes[q]
    {
      && p in nodes && nodes[p].path == p
      && (forall b {:trigger Then(p, b)} :: b in nodes[p].proceed <==> Then(p, b) in nodes)
      && (forall b {:trigger nodes[p].proceed[b]} :: b in nodes[p].proceed ==> nodes[p].proceed[b] == nodes[Then(p, b)])
      && nodes[p].end == if p in table then Some(table[p]) else None
    }

    ghost predicate Nodes()
      reads this, set q | q in nodes :: nodes[q]
    {
      [] in nodes && nodes[[]] == root && forall p {:trigger NodeAt(p)} :: p in nodes ==> NodeAt(p)
    }

    /** The paths of the tree are the beginnings of the keywords. */
    ghost predicate Valid()
      reads this, set q | q in nodes :: nodes[q]
    {
      Nodes() && PrefixFree(table) && Paths(nodes.Keys, table, [], 0)
    }

    /** action_init, before the table is inserted. */
    constructor ()
      ensures Valid() && table == map[] && fresh(root) && nodes == map[[] := root]
    {
      root := new Node(None, []);
      new;
      nodes, table := map[[] := root], map[];
    }

    /** A missing link of the node at path p. */
    method AddLink(atp: Node, c: Byte, ghost p: Word) returns (next: Node)
      requires Nodes() && p in nodes && atp == nodes[p] && c !in atp.proceed && Then(p, c) !in table
      requires forall b :: Then(Then(p, c), b) !in nodes
      modifies `nodes, atp
      ensures Nodes() && fresh(next) && nodes == old(nodes)[Then(p, c) := next]
    {
      assert NodeAt(p);
      next := new Node(None, Then(p, c));
      atp.proceed := atp.proceed[c := next];
      nodes := nodes[Then(p, c) := next];
      ThenInjective(p, c);
      forall q | q in nodes ensures NodeAt(q) {
        assert q in old(nodes) ==> old(NodeAt(q));
      }
    }

    /** The link of the node at path p for byte c, made if it is missing. */
    method Proceed(atp: Node, c: Byte, ghost p: Word) returns (next: Node)
      requires Nodes() && p in nodes && atp == nodes[p]
      requires Then(p, c) !in nodes ==> Then(p, c) !in table && forall b :: Then(Then(p, c), b) !in nodes
      modifies `nodes, atp
      ensures Nodes() && Then(p, c) in nodes && next == nodes[Then(p, c)]
      ensures nodes == old(nodes)[Then(p, c) := next]
      ensures (Then(p, c) in old(nodes) && next == old(nodes)[Then(p, c)]) || fresh(next)
    {
      assert NodeAt(p);
      if c in atp.proceed {
        next := atp.proceed[c];
      } else {
        next := AddLink(atp, c, p);
      }
    }

    /** Where a link is missing, nothing lies behind it. */
    lemma NoneBehind(word: Word, k: nat, q: Word)
      requires Paths(nodes.Keys, table, word, k) && k < |word| && Joins(table, word) && q == word[..k + 1]
      requires q !in nodes
      ensures q !in table && forall b :: Then(q, b) !in nodes
    {
      if q in table {
        assert Starts(q, q);
      }
      forall b ensures Then(q, b) !in nodes {
        assert |Then(q, b)| == k + 2;
      }
    }

    /** A new keyword is the beginning of no path. */
    lemma NoneBehindWord(word: Word)
      requires Paths(nodes.Keys, table, word, |word|) && Joins(table, word)
      ensures forall b :: Then(word, b) !in nodes
    {
      forall b ensures Then(word, b) !in nodes {
        assert |Then(word, b)| == |word| + 1;
      }
    }

    /** Nodes are only added or replaced by new ones. */
    twostate predicate Grows()
      reads this
    {
      forall q :: q in nodes ==> (q in old(nodes) && nodes[q] == old(nodes)[q]) || fresh(nodes[q])
    }

    /** One byte of a new keyword: its first k bytes lead to atp. */
    method Descend(atp: Node, word: Word, k: nat) returns (next: Node)
      requires Nodes() && k < |word| && word[..k] in nodes && atp == nodes[word[..k]]
      requires Paths(nodes.Keys, table, word, k) && Joins(table, word)
      modifies `nodes, atp
      ensures Nodes() && word[..k + 1] in nodes && next == nodes[word[..k + 1]]
      ensures Paths(nodes.Keys, table, word, k + 1)
      ensures nodes == old(nodes)[word[..k + 1] := next]
      ensures (word[..k + 1] in old(nodes) && next == old(nodes)[word[..k + 1]]) || fresh(next)
    {
      hide Paths, Joins, NodeAt;
      ghost var q := word[..k + 1];
      assert Then(word[..k], word[k]) == q;
      PathsNext(nodes.Keys, table, word, k);
      if q !in nodes {
        NoneBehind(word, k, q);
      }
      next := Proceed(atp, word[k], word[..k]);
      assert nodes.Keys == old(nodes).Keys + {q};
    }

    /** The path of a new keyword is made; parent is the last node but one. */
    method MakePath(word: Word) returns (parent: Node)
      requires Nodes() && Paths(nodes.Keys, table, word, 0) && Joins(table, word) && word != []
      modifies `nodes, set q | q in nodes :: nodes[q]
      ensures Nodes() && Paths(nodes.Keys, table, word, |word|) && Grows()
      ensures word in nodes && word[..|word| - 1] in nodes && parent == nodes[word[..|word| - 1]]
    {
      assert [] in nodes && nodes[[]] == root;
      hide Paths, Joins, Nodes;
      var atp, k := root, 0;
      parent := root;
      while k < |word|
        invariant 0 <= k <= |word| && Nodes() && Paths(nodes.Keys, table, word, k) && Grows()
        invariant word[..k] in nodes && atp == nodes[word[..k]]
        invariant k > 0 ==> word[..k - 1] in nodes && parent == nodes[word[..k - 1]]
      {
        parent := atp;
        atp := Descend(atp, word, k);
        k := k + 1;
      }
      assert word[..k] == word;
    }

    /** action_insert */
    method Insert(word: Word, action: Action)
      requires Valid() && Joins(table, word)
      modifies this, set q | q in nodes :: nodes[q]
      ensures Valid() && table == old(table)[word := action] && Grows()
    {
      assert word != [];
      hide Paths, Joins, PrefixFree, Nodes;
      PathsStart(nodes.Keys, table, word);
      var parent := MakePath(word);
      NoneBehindWord(word);
      EndNode(parent, word, action);
      PathsJoin(nodes.Keys, old(table), word, action);
      Joined(old(table), word, action);
    }

    /** The last node of a new keyword is replaced by an end node. */
    method EndNode(parent: Node, word: Word, action: Action)
      requires Nodes() && word != [] && forall b :: Then(word, b) !in nodes
      requires word[..|word| - 1] in nodes && parent == nodes[word[..|word| - 1]] && word in nodes
      modifies this, parent
      ensures Nodes() && table == old(table)[word := action]
      ensures nodes.Keys == old(nodes).Keys && Grows()
    {
      ghost var p := word[..|word| - 1];
      var c := word[|word| - 1];
      assert Then(p, c) == word;
      assert NodeAt(p);
      var end := new Node(Some(action), word);
      parent.proceed := parent.proceed[c := end];
      nodes, table := nodes[word := end], table[word := action];
      ThenInjective(p, c);
      forall q | q in nodes ensures NodeAt(q) {
        assert old(NodeAt(q));
      }
    }

    /** The link for byte c leads somewhere if some keyword goes on with c, and to an end
        node if it ends there. */
    lemma LinkIs(p: Word, c: Byte, q: Word)
      requires Valid() && p in nodes && q == Then(p, c)
      ensures c in nodes[p].proceed <==> SomeStarts(table, q)
      ensures c in nodes[p].proceed ==>
                && q in nodes && nodes[p].proceed[c] == nodes[q]
                && nodes[q].end == if q in table then Some(table[q]) else None
      ensures q in table ==> SomeStarts(table, q)
    {
      assert NodeAt(p);
      if q in nodes {
        assert NodeAt(q);
      }
      if q in table {
        assert Starts(q, q);
      }
    }

    lemma RootPath()
      requires Valid()
      ensures [] in nodes && nodes[[]] == root
    {
    }

    /** The link of a node for one byte. */
    method FollowLink(atp: Node, c: Byte, ghost p: Word, ghost q: Word) returns (next: Option<Node>)
      requires Valid() && p in nodes && atp == nodes[p] && q == Then(p, c)
      ensures next.Some? <==> SomeStarts(table, q)
      ensures next.Some? ==>
                q in nodes && next.value == nodes[q] && next.value.end == if q in table then Some(table[q]) else None
      ensures q in table ==> next.Some?
    {
      LinkIs(p, c, q);
      next := if c in atp.proceed then Some(atp.proceed[c]) else None;
    }

    /** The walk of action_parse_event from one position. */
    method Recognize(text: Word, pos: nat) returns (m: Match)
      requires Valid() && pos <= |text|
      ensures m == Scan(table, text, pos, pos)
    {
      hide Valid, SomeStarts, Scan, Then;
      RootPath();
      ghost var p: Word := [];
      assert p == text[pos..pos];
      ScanEnd(table, text, pos);
      var atp, k := root, pos;
      while k < |text|
        invariant Valid() && pos <= k <= |text| && p == text[pos..k] && p in nodes && atp == nodes[p]
        invariant Scan(table, text, pos, k) == Scan(table, text, pos, pos)
      {
        ghost var q := text[pos..k + 1];
        ScanStep(table, text, pos, k);
        var next := FollowLink(atp, text[k], p, q);
        k := k + 1;
        if next.None? {
          return Foiled(k);
        }
        atp, p := next.value, q;
        if atp.end.Some? {
          return Keyword(atp.end.value, k);
        }
      }
      return Exhausted;
    }

    /** action_parse_event */
    method ParseEvent(text: Word, doer: (Action, nat) -> nat) returns (found: seq<(Action, nat)>)
      requires Valid() && forall a, i: nat :: i <= |text| ==> i <= doer(a, i) <= |text|
      ensures found == Parse(table, text, doer, 0)
    {
      hide Valid, Scan;
      found := [];
      var s := 0;
      while s < |text|
        invariant 0 <= s <= |text|
        invariant found + Parse(table, text, doer, s) == Parse(table, text, doer, 0)
        decreases |text| - s
      {
        if Space(text[s]) {
          s := s + 1;
        } else {
          ScanMoves(table, text, s, s);
          var m := Recognize(text, s);
          match m {
            case Keyword(action, next) =>
              found := found + [(action, next)];
              s := doer(action, next);
            case Foiled(next) =>
              s := next;
            case Exhausted =>
              return;
          }
        }
      }
    }
  }

  // ----- the table -----

  /** The entries of the table of keywords: none is empty or the beginning of another. */
  ghost predicate Keywords(entries: seq<(Word, Action)>) {
    && (forall i :: 0 <= i < |entries| ==> entries[i].0 != [])
    && forall i, j :: 0 <= i < j < |entries| ==>
         !Starts(entries[i].0, entries[j].0) && !Starts(entries[j].0, entries[i].0)
  }

  /** A linear search. */
  function Search(entries: seq<(Word, Action)>, word: Word): Option<Action> {
    if entries == [] then None else if entries[0].0 == word then Some(entries[0].1) else Search(entries[1..], word)
  }

  lemma {:induction false} SearchFinds(entries: seq<(Word, Action)>, word: Word)
    ensures match Search(entries, word)
            case None => forall i :: 0 <= i < |entries| ==> entries[i].0 != word
            case Some(a) => exists i :: 0 <= i < |entries| && entries[i] == (word, a)
  {
    if entries != [] && entries[0].0 != word {
      SearchFinds(entries[1..], word);
      match Search(entries, word)
      case None =>
        forall i | 0 <= i < |entries| ensures entries[i].0 != word {
          assert i > 0 ==> entries[i] == entries[1..][i - 1];
        }
      case Some(a) =>
        var i :| 0 <= i < |entries| - 1 && entries[1..][i] == (word, a);
        assert entries[i + 1] == (word, a);
    } else if entries != [] {
      assert entries[0] == (word, entries[0].1);
    }
  }

  function TableOf(entries: seq<(Word, Action)>): Table {
    if entries == [] then map[]
    else
      var last := entries[|entries| - 1];
      TableOf(entries[..|entries| - 1])[last.0 := last.1]
  }

  lemma {:induction false} TableHolds(entries: seq<(Word, Action)>)
    requires Keywords(entries)
    ensures forall w :: w in TableOf(entries) <==> exists i :: 0 <= i < |entries| && entries[i].0 == w
    ensures forall i :: 0 <= i < |entries| ==> TableOf(entries)[entries[i].0] == entries[i].1
    decreases |entries|
  {
    if entries != [] {
      var init, last := entries[..|entries| - 1], entries[|entries| - 1];
      TableHolds(init);
      forall i | 0 <= i < |init| ensures init[i] == entries[i] && entries[i].0 != last.0 {
        assert Starts(last.0, last.0);
      }
      forall w ensures w in TableOf(entries) <==> exists i :: 0 <= i < |entries| && entries[i].0 == w {
        if w in TableOf(init) {
          var i :| 0 <= i < |init| && init[i].0 == w;
          assert entries[i].0 == w;
        }
      }
    }
  }

  lemma NextJoins(entries: seq<(Word, Action)>, k: nat)
    requires Keywords(entries) && k < |entries|
    ensures Joins(TableOf(entries[..k]), entries[k].0)
    ensures TableOf(entries[..k + 1]) == TableOf(entries[..k])[entries[k].0 := entries[k].1]
  {
    TableHolds(entries[..k]);
    assert entries[..k + 1][..k] == entries[..k];
    forall v | v in TableOf(entries[..k]) ensures !Starts(v, entries[k].0) && !Starts(entries[k].0, v) {
      var i :| 0 <= i < k && entries[..k][i].0 == v;
      assert entries[i].0 == v;
    }
  }

  /** The loop of action_init. */
  method BuildTree(entries: seq<(Word, Action)>) returns (tree: ActionTree)
    requires Keywords(entries)
    ensures tree.Valid() && tree.table == TableOf(entries)
  {
    hide PrefixFree, Paths, Joins, Keywords;
    tree := new ActionTree();
    var k := 0;
    assert entries[..0] == [];
    while k < |entries|
      invariant 0 <= k <= |entries| && tree.Valid() && tree.table == TableOf(entries[..k])
      invariant fresh(tree) && forall q :: q in tree.nodes ==> fresh(tree.nodes[q])
    {
      NextJoins(entries, k);
      tree.Insert(entries[k].0, entries[k].1);
      k := k + 1;
    }
    assert entries[..k] == entries;
  }

  lemma KeywordsPrefixFree(entries: seq<(Word, Action)>)
    requires Keywords(entries)
    ensures PrefixFree(TableOf(entries))
  {
    var table := TableOf(entries);
    TableHolds(entries);
    forall v, w | v in table && w in table && Starts(v, w) ensures v == w {
      var i :| 0 <= i < |entries| && entries[i].0 == v;
      var j :| 0 <= j < |entries| && entries[j].0 == w;
    }
  }

  /** In the tree that is built from the keywords, walking a word from the root reaches
      an end node with an action if and only if a linear search finds that action. */
  lemma TreeSearches(entries: seq<(Word, Action)>, word: Word, action: Action)
    requires Keywords(entries) && word != []
    ensures Scan(TableOf(entries), word, 0, 0) == Keyword(action, |word|) <==> Search(entries, word) == Some(action)
  {
    TableHolds(entries);
    KeywordsPrefixFree(entries);
    WordFound(TableOf(entries), word, action);
    SearchFinds(entries, word);
  }
}
