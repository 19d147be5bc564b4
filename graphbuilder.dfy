// Building the knowledge graph from a triple file: each line is split on
// whitespace into at most three words, a relation written with a leading
// underscore is normalised to upper case, equal triples are kept once, and
// writing the triples creates one node per entity name (remembered across
// calls in a name -> id table) and one relationship per triple.
module GraphBuilder {
  import opened Common

  // ---------------------------------------------------------------------
  // Lines and words
  // ---------------------------------------------------------------------

  /** The characters of Java's regular-expression class `\s`. */
  predicate IsSpace(c: char)
  {
    c == ' ' || c == '\t' || c == '\n' || c == '\U{000B}' || c == '\U{000C}' || c == '\r'
  }

  /** The characters `replaceFirst("[(|)]", "")` removes the first of. */
  const Brackets: set<char> := {'(', '|', ')'}

  const FormError: string := "Error: Triple entry should be in the form of (sub pred obj)"
  const NullError: string := "NullPointerException"
  const IndexError: string := "ArrayIndexOutOfBoundsException"

  /** The pieces between single whitespace characters (`split("[\\s]")`):
    * two adjacent spaces leave an empty piece between them. Java also drops
    * trailing empty pieces; every empty piece is skipped by the one caller,
    * so keeping them changes nothing. */
  function Pieces(s: string): (r: seq<string>)
    ensures |r| >= 1
  {
    if s == [] then [""]
    else
      var rest := Pieces(s[1..]);
      if IsSpace(s[0]) then [""] + rest
      else [[s[0]] + rest[0]] + rest[1..]
  }

  predicate NoSpace(w: string)
  {
    forall i :: 0 <= i < |w| ==> !IsSpace(w[i])
  }

  /** No piece contains whitespace, and there is one piece more than there
    * are whitespace characters. */
  lemma {:induction false} PiecesNoSpace(s: string)
    ensures forall i :: 0 <= i < |Pieces(s)| ==> NoSpace(Pieces(s)[i])
    ensures |Pieces(s)| == 1 + SpaceCount(s)
  {
    if s != [] {
      PiecesNoSpace(s[1..]);
    }
  }

  function SpaceCount(s: string): nat
  {
    if s == [] then 0 else (if IsSpace(s[0]) then 1 else 0) + SpaceCount(s[1..])
  }

  /** A word without whitespace is a single piece. */
  lemma {:induction false} PiecesOfWord(w: string)
    requires NoSpace(w)
    ensures Pieces(w) == [w]
  {
    if w != [] {
      PiecesOfWord(w[1..]);
      assert [w[0]] + w[1..] == w;
    }
  }

  /** A word followed by a whitespace character splits off as the first
    * piece. */
  lemma {:induction false} PiecesSplit(a: string, c: char, b: string)
    requires NoSpace(a) && IsSpace(c)
    ensures Pieces(a + [c] + b) == [a] + Pieces(b)
  {
    if a == [] {
      assert a + [c] + b == [c] + b;
      assert ([c] + b)[1..] == b;
    } else {
      var s := a + [c] + b;
      assert s[0] == a[0] && s[1..] == a[1..] + [c] + b;
      PiecesSplit(a[1..], c, b);
      assert [a[0]] + a[1..] == a;
    }
  }

  /** The non-empty pieces, each without its first bracket character: the
    * words processLine keeps, in order. */
  function Kept(pieces: seq<string>): (r: seq<string>)
    ensures |r| <= |pieces|
  {
    if pieces == [] then []
    else
      var last := pieces[|pieces| - 1];
      Kept(pieces[..|pieces| - 1]) + (if last == "" then [] else [RemoveFirstOf(last, Brackets)])
  }

  function Tokens(line: string): seq<string>
  {
    Kept(Pieces(line))
  }

  /** Keeping words from a prefix keeps no more than from the whole. */
  lemma {:induction false} KeptPrefix(pieces: seq<string>, i: nat)
    requires i <= |pieces|
    ensures |Kept(pieces[..i])| <= |Kept(pieces)|
    decreases |pieces| - i
  {
    if i < |pieces| {
      var p := pieces[..i + 1];
      assert p[..|p| - 1] == pieces[..i];
      KeptPrefix(pieces, i + 1);
    } else {
      assert pieces[..i] == pieces;
    }
  }

  /** Slot `k` of processLine's three-element result array: the k-th word,
    * or null (None) when the line has fewer words. */
  function Slot(words: seq<string>, k: nat): Option<string>
  {
    if k < |words| then Some(words[k]) else None
  }

  function SlotsOf(words: seq<string>): (r: seq<Option<string>>)
    ensures |r| == 3
  {
    [Slot(words, 0), Slot(words, 1), Slot(words, 2)]
  }

  /** processLine: the words of `line` placed in a three-slot array; a
    * fourth word overruns the array, which the source reports and exits on. */
  method ProcessLine(line: string) returns (r: Result<seq<Option<string>>>)
    ensures r.Ok? <==> |Tokens(line)| <= 3
    ensures r.Ok? ==> r.value == SlotsOf(Tokens(line))
    ensures r.Err? ==> r.error == FormError
  {
    var words := Pieces(line);
    var results := new Option<string>[3];
    results[0], results[1], results[2] := None, None, None;
    var count := 0;
    for i := 0 to |words|
      invariant count == |Kept(words[..i])| <= 3
      invariant forall k :: 0 <= k < 3 ==> results[k] == Slot(Kept(words[..i]), k)
    {
      assert words[..i + 1][..i] == words[..i];
      if words[i] != "" {
        var word := RemoveFirstOf(words[i], Brackets);
        if count == 3 {
          KeptPrefix(words, i + 1);
          r := Err(FormError);
          return;
        }
        results[count] := Some(word);
        count := count + 1;
      }
    }
    assert words[..|words|] == words;
    r := Ok([results[0], results[1], results[2]]);
  }

  // ---------------------------------------------------------------------
  // Triples
  // ---------------------------------------------------------------------

  /** A triple of the input file; equal exactly when head, relation and tail
    * are equal (datatype equality is the source's equals). */
  datatype Triple = Triple(head: string, relation: string, tail: string)

  /** The relation a relation word denotes: a leading underscore is dropped
    * and the rest upper-cased; any other word is kept as it is. */
  function Relation(word: string): (r: string)
    requires word != ""
    ensures word[0] == '_' ==> |r| == |word| - 1 && forall i :: 0 <= i < |r| ==> r[i] == ToUpperAscii(word[i + 1])
    ensures word[0] != '_' ==> r == word
  {
    if word[0] == '_' then UpperAscii(word[1..]) else word
  }

  /** The loop body of readTriples on processLine's slots: reading the
    * relation's first character fails on a missing (null) or empty word,
    * and hashing the new triple fails on a missing head or tail. */
  function SlotsTriple(slots: seq<Option<string>>): (r: Result<Triple>)
    requires |slots| == 3
  {
    if slots[1].None? then Err(NullError)
    else if slots[1].value == "" then Err(IndexError)
    else if slots[0].None? || slots[2].None? then Err(NullError)
    else Ok(Triple(slots[0].value, Relation(slots[1].value), slots[2].value))
  }

  /** The triple one line yields, or the error it stops the reader with. */
  function LineTriple(line: string): (r: Result<Triple>)
  {
    if |Tokens(line)| > 3 then Err(FormError) else SlotsTriple(SlotsOf(Tokens(line)))
  }

  /** A line is read exactly when it has three words and the relation word
    * did not consist of a bracket alone; the triple is then made of the
    * three words with the relation normalised. */
  lemma LineTripleOk(line: string)
    ensures LineTriple(line).Ok? <==> |Tokens(line)| == 3 && Tokens(line)[1] != ""
    ensures LineTriple(line).Ok? ==>
      LineTriple(line).value == Triple(Tokens(line)[0], Relation(Tokens(line)[1]), Tokens(line)[2])
  {
  }

  /** A word the reader keeps as it is: non-empty, without whitespace and
    * without bracket characters. */
  predicate Word(w: string)
  {
    w != [] && forall i :: 0 <= i < |w| ==> !IsSpace(w[i]) && w[i] !in Brackets
  }

  /** Words the reader keeps as they are come out unchanged. */
  lemma {:induction false} KeptWords(ps: seq<string>)
    requires forall i :: 0 <= i < |ps| ==> Word(ps[i])
    ensures Kept(ps) == ps
  {
    if ps != [] {
      var n := |ps| - 1;
      KeptWords(ps[..n]);
      assert ps[..n] + [ps[n]] == ps;
    }
  }

  /** Three words separated by tabs are three pieces. */
  lemma ThreePieces(h: string, rel: string, t: string)
    requires Word(h) && Word(rel) && Word(t)
    ensures Pieces(h + "\t" + rel + "\t" + t) == [h, rel, t]
  {
    var line := h + "\t" + rel + "\t" + t;
    assert line == h + ['\t'] + (rel + ['\t'] + t);
    PiecesSplit(h, '\t', rel + ['\t'] + t);
    PiecesSplit(rel, '\t', t);
    PiecesOfWord(t);
  }

  /** A line of three words separated by tabs yields the triple of those
    * words, the relation normalised. */
  lemma LineOfWords(h: string, rel: string, t: string)
    requires Word(h) && Word(rel) && Word(t)
    ensures LineTriple(h + "\t" + rel + "\t" + t) == Ok(Triple(h, Relation(rel), t))
  {
    ThreePieces(h, rel, t);
    KeptWords([h, rel, t]);
  }

  /** Triple.toString: the three fields separated by tabs. */
  function TripleString(t: Triple): (s: string)
    ensures |s| == |t.head| + |t.relation| + |t.tail| + 2
    ensures t.head <= s && s[|t.head|] == '\t'
  {
    t.head + "\t" + t.relation + "\t" + t.tail
  }

  /** A triple the reader reproduces from its own rendering. */
  predicate Readable(t: Triple)
  {
    Word(t.head) && Word(t.relation) && Word(t.tail) && t.relation[0] != '_'
  }

  /** Reading back a rendered triple gives the triple. */
  lemma ReadRendered(t: Triple)
    requires Readable(t)
    ensures LineTriple(TripleString(t)) == Ok(t)
  {
    LineOfWords(t.head, t.relation, t.tail);
  }

  /** Triple.hashCode: five times the head's hash, twice the relation's and
    * five times the tail's, in 32-bit arithmetic (wrapping each product and
    * sum wraps the total alike). */
  function TripleHash(t: Triple): (h: int)
    ensures IsInt32(h)
  {
    Wrap32(5 * JavaStringHash(t.head) + 2 * JavaStringHash(t.relation) + 5 * JavaStringHash(t.tail))
  }

  /** The hash weighs head and tail alike, so a triple and its reverse
    * collide. */
  lemma HashIgnoresDirection(a: string, rel: string, b: string)
    ensures TripleHash(Triple(a, rel, b)) == TripleHash(Triple(b, rel, a))
  {
  }

  // ---------------------------------------------------------------------
  // readTriples
  // ---------------------------------------------------------------------

  /** The set of values of a sequence of results, or its first error. */
  function Collect<T>(rs: seq<Result<T>>): Result<set<T>>
  {
    if rs == [] then Ok({})
    else
      match Collect(rs[..|rs| - 1])
      case Err(e) => Err(e)
      case Ok(ts) =>
        match rs[|rs| - 1]
        case Err(e) => Err(e)
        case Ok(t) => Ok(ts + {t})
  }

  /** The values of the successful results. */
  function Values<T>(rs: seq<Result<T>>): set<T>
  {
    set i | 0 <= i < |rs| && rs[i].Ok? :: rs[i].value
  }

  /** Once a prefix fails, the whole sequence fails with that error. */
  lemma {:induction false} CollectErrStays<T>(rs: seq<Result<T>>, k: nat)
    requires k <= |rs| && Collect(rs[..k]).Err?
    ensures Collect(rs) == Collect(rs[..k])
    decreases |rs| - k
  {
    if k == |rs| {
      assert rs[..k] == rs;
    } else {
      var p := rs[..k + 1];
      assert p[..|p| - 1] == rs[..k];
      CollectErrStays(rs, k + 1);
    }
  }

  /** Collecting succeeds exactly when every result does. */
  lemma {:induction false} CollectOk<T>(rs: seq<Result<T>>)
    ensures Collect(rs).Ok? <==> forall i :: 0 <= i < |rs| ==> rs[i].Ok?
  {
    if rs != [] {
      var n := |rs| - 1;
      CollectOk(rs[..n]);
      assert forall i :: 0 <= i < n ==> rs[..n][i] == rs[i];
    }
  }

  lemma ValuesSnoc<T>(rs: seq<Result<T>>)
    requires rs != [] && rs[|rs| - 1].Ok?
    ensures Values(rs) == Values(rs[..|rs| - 1]) + {rs[|rs| - 1].value}
  {
    var n := |rs| - 1;
    var front := rs[..n];
    forall x | x in Values(rs) ensures x in Values(front) + {rs[n].value} {
      var i :| 0 <= i < |rs| && rs[i].Ok? && rs[i].value == x;
      if i < n { assert front[i] == rs[i]; }
    }
    forall x | x in Values(front) ensures x in Values(rs) {
      var i :| 0 <= i < n && front[i].Ok? && front[i].value == x;
      assert front[i] == rs[i];
    }
  }

  /** A successful collection holds the values of all the results, and no
    * more of them than there are results. */
  lemma {:induction false} CollectValue<T>(rs: seq<Result<T>>)
    requires Collect(rs).Ok?
    ensures Collect(rs).value == Values(rs)
    ensures |Collect(rs).value| <= |rs|
  {
    if rs != [] {
      var n := |rs| - 1;
      CollectValue(rs[..n]);
      ValuesSnoc(rs);
      var ts := Collect(rs[..n]).value;
      var t := rs[n].value;
      assert |ts + {t}| <= |ts| + 1 by {
        if t in ts { assert ts + {t} == ts; }
      }
    }
  }

  /** What each line yields, in order. */
  function LineResults(lines: seq<string>): (r: seq<Result<Triple>>)
    ensures |r| == |lines| && forall i :: 0 <= i < |lines| ==> r[i] == LineTriple(lines[i])
  {
    if lines == [] then [] else LineResults(lines[..|lines| - 1]) + [LineTriple(lines[|lines| - 1])]
  }

  /** The set of triples the lines of a file yield, or the first failing
    * line's error. */
  function ReadAll(lines: seq<string>): Result<set<Triple>>
  {
    Collect(LineResults(lines))
  }

  /** The file is read exactly when every line is; equal triples are then
    * kept once, so there are no more triples than lines, and they are the
    * triples of the lines. */
  lemma ReadAllOk(lines: seq<string>)
    ensures ReadAll(lines).Ok? <==> forall i :: 0 <= i < |lines| ==> LineTriple(lines[i]).Ok?
    ensures ReadAll(lines).Ok? ==>
      |ReadAll(lines).value| <= |lines| &&
      forall t :: t in ReadAll(lines).value <==> exists i :: 0 <= i < |lines| && LineTriple(lines[i]) == Ok(t)
  {
    var rs := LineResults(lines);
    CollectOk(rs);
    if ReadAll(lines).Ok? {
      CollectValue(rs);
      forall t ensures t in Values(rs) <==> exists i :: 0 <= i < |lines| && LineTriple(lines[i]) == Ok(t) {
        if t in Values(rs) {
          var i :| 0 <= i < |rs| && rs[i].Ok? && rs[i].value == t;
          assert LineTriple(lines[i]) == Ok(t);
        }
        if exists i :: 0 <= i < |lines| && LineTriple(lines[i]) == Ok(t) {
          var i :| 0 <= i < |lines| && LineTriple(lines[i]) == Ok(t);
          assert rs[i].Ok? && rs[i].value == t;
        }
      }
    }
  }

  function Rendered(ts: seq<Triple>): (r: seq<string>)
    ensures |r| == |ts|
  {
    if ts == [] then [] else Rendered(ts[..|ts| - 1]) + [TripleString(ts[|ts| - 1])]
  }

  function TriplesOf(ts: seq<Triple>): set<Triple>
  {
    set i | 0 <= i < |ts| :: ts[i]
  }

  lemma TriplesOfSnoc(ts: seq<Triple>)
    requires ts != []
    ensures TriplesOf(ts) == TriplesOf(ts[..|ts| - 1]) + {ts[|ts| - 1]}
  {
    var n := |ts| - 1;
    forall x | x in TriplesOf(ts) ensures x in TriplesOf(ts[..n]) + {ts[n]} {
      var i :| 0 <= i < |ts| && ts[i] == x;
      if i < n { assert ts[..n][i] == x; }
    }
  }

  /** Reading back the rendering of readable triples gives the set of them. */
  lemma {:induction false} ReadAllRendered(ts: seq<Triple>)
    requires forall i :: 0 <= i < |ts| ==> Readable(ts[i])
    ensures ReadAll(Rendered(ts)) == Ok(TriplesOf(ts))
  {
    if ts == [] {
      assert TriplesOf(ts) == {};
    } else {
      var n := |ts| - 1;
      var lines := Rendered(ts);
      assert lines[..n] == Rendered(ts[..n]);
      assert LineResults(lines) == LineResults(lines[..n]) + [LineTriple(lines[n])];
      ReadAllRendered(ts[..n]);
      ReadRendered(ts[n]);
      TriplesOfSnoc(ts);
    }
  }

  /** readTriples over the lines of a file. */
  method ReadTriples(lines: seq<string>) returns (r: Result<set<Triple>>)
    ensures r == ReadAll(lines)
  {
    var triples: set<Triple> := {};
    for i := 0 to |lines|
      invariant ReadAll(lines[..i]) == Ok(triples)
    {
      assert lines[..i + 1][..i] == lines[..i];
      var words := ProcessLine(lines[i]);
      var t := if words.Err? then Err(words.error) else SlotsTriple(words.value);
      if t.Err? {
        assert LineResults(lines)[..i + 1] == LineResults(lines[..i + 1]);
        CollectErrStays(LineResults(lines), i + 1);
        return Err(t.error);
      }
      triples := triples + {t.value};
    }
    assert lines[..|lines|] == lines;
    r := Ok(triples);
  }

  /** Triple.getNodes: every head and every tail. */
  function GetNodes(triples: set<Triple>): (nodes: set<string>)
    ensures forall t :: t in triples ==> t.head in nodes && t.tail in nodes
    ensures forall n :: n in nodes ==> exists t :: t in triples && (n == t.head || n == t.tail)
  {
    (set t | t in triples :: t.head) + (set t | t in triples :: t.tail)
  }

  /** Triple.getRelationshipTypes: every relation. */
  function GetRelationshipTypes(triples: set<Triple>): set<string>
  {
    set t | t in triples :: t.relation
  }

  // ---------------------------------------------------------------------
  // writeToGraph
  // ---------------------------------------------------------------------

  const EntityLabel: string := "Entity"

  /** A node as written: its `name` property and its labels. */
  datatype NodeRecord = NodeRecord(name: string, labels: seq<string>)

  /** A relationship between two node ids, with its type. */
  datatype RelRecord = RelRecord(src: int, relType: string, dst: int)

  /** The name -> id table together with the graph it indexes; a node's id
    * is its position in `nodes`. */
  datatype Store = Store(ids: map<string, int>, nodes: seq<NodeRecord>, rels: seq<RelRecord>)

  const Empty: Store := Store(map[], [], [])

  /** Every name in the table points at a node carrying that name. */
  ghost predicate TableSound(s: Store)
  {
    forall n :: n in s.ids ==> 0 <= s.ids[n] < |s.nodes| && s.nodes[s.ids[n]].name == n
  }

  /** Every node's name is in the table and points back at that node. */
  ghost predicate TableComplete(s: Store)
  {
    forall i :: 0 <= i < |s.nodes| ==> s.nodes[i].name in s.ids && s.ids[s.nodes[i].name] == i
  }

  /** Every node carries the one label Entity. */
  ghost predicate Labelled(s: Store)
  {
    forall i :: 0 <= i < |s.nodes| ==> s.nodes[i].labels == [EntityLabel]
  }

  /** Every relationship joins two nodes of the store. */
  ghost predicate RelsJoinNodes(s: Store)
  {
    forall k :: 0 <= k < |s.rels| ==> 0 <= s.rels[k].src < |s.nodes| && 0 <= s.rels[k].dst < |s.nodes|
  }

  /** The table maps each written name to the one node carrying it, every
    * node carries the label Entity, and every relationship joins nodes. */
  ghost predicate WellFormed(s: Store)
  {
    TableSound(s) && TableComplete(s) && Labelled(s) && RelsJoinNodes(s)
  }

  /** In a well-formed store no two nodes carry the same name. */
  lemma NamesDistinct(s: Store, i: nat, j: nat)
    requires TableComplete(s) && i < j < |s.nodes|
    ensures s.nodes[i].name != s.nodes[j].name
  {
  }

  /** A new node named `name`, labelled Entity, entered in the table. */
  function NewNode(s: Store, name: string): Store
  {
    Store(s.ids[name := |s.nodes|], s.nodes + [NodeRecord(name, [EntityLabel])], s.rels)
  }

  /** One triple written as the source does: both names are looked up
    * before either node is created. */
  function AddTripleAsWritten(s: Store, t: Triple): (r: Store)
    ensures |r.rels| == |s.rels| + 1 && r.rels[..|s.rels|] == s.rels
    ensures |r.nodes| == |s.nodes| + (if t.head in s.ids then 0 else 1) + (if t.tail in s.ids then 0 else 1)
  {
    var headKnown, tailKnown := t.head in s.ids, t.tail in s.ids;
    var s1 := if headKnown then s else NewNode(s, t.head);
    var headId := if headKnown then s.ids[t.head] else |s.nodes|;
    var s2 := if tailKnown then s1 else NewNode(s1, t.tail);
    var tailId := if tailKnown then s.ids[t.tail] else |s1.nodes|;
    Store(s2.ids, s2.nodes, s2.rels + [RelRecord(headId, t.relation, tailId)])
  }

  /** One triple written with the tail looked up after the head's node
    * exists, so a self-loop on a new name creates one node. */
  function AddTriple(s: Store, t: Triple): (r: Store)
    ensures |r.rels| == |s.rels| + 1 && r.rels[..|s.rels|] == s.rels
    ensures |r.nodes| == |s.nodes| + |{t.head, t.tail} - s.ids.Keys|
    ensures t.head in r.ids && t.tail in r.ids
  {
    var s2 := Entered(Entered(s, t.head), t.tail);
    Store(s2.ids, s2.nodes, s2.rels + [RelRecord(s2.ids[t.head], t.relation, s2.ids[t.tail])])
  }

  /** The store with a node for `name`: the one it has, or a new one. */
  function Entered(s: Store, name: string): (r: Store)
    ensures name in r.ids
    ensures s.ids.Keys <= r.ids.Keys
  {
    if name in s.ids then s else NewNode(s, name)
  }

  /** A self-loop on a name not yet written makes the source create two
    * nodes with that name, the table keeping only the second. */
  lemma SelfLoopDuplicatesNode()
    ensures var s := AddTripleAsWritten(Empty, Triple("a", "r", "a"));
      |s.nodes| == 2 && s.nodes[0].name == s.nodes[1].name == "a" && s.rels == [RelRecord(0, "r", 1)] &&
      !WellFormed(s)
  {
    var s := AddTripleAsWritten(Empty, Triple("a", "r", "a"));
    assert s.ids["a"] == 1;
  }

  /** The same self-loop, written with the corrected lookup order, creates
    * one node and a relationship from it to itself. */
  lemma SelfLoopOneNode()
    ensures var s := AddTriple(Empty, Triple("a", "r", "a"));
      |s.nodes| == 1 && s.nodes[0].name == "a" && s.rels == [RelRecord(0, "r", 0)] && WellFormed(s)
  {
  }

  /** Outside that case the source's lookup order gives the same store. */
  lemma AsWrittenAgrees(s: Store, t: Triple)
    requires WellFormed(s)
    requires t.head != t.tail || t.head in s.ids
    ensures AddTripleAsWritten(s, t) == AddTriple(s, t)
  {
  }

  /** The names a store has written. */
  function Names(s: Store): set<string> { s.ids.Keys }

  /** The types of a store's relationships. */
  function RelTypes(rels: seq<RelRecord>): (r: set<string>)
    ensures forall x :: x in r <==> exists k :: 0 <= k < |rels| && rels[k].relType == x
  {
    set k | 0 <= k < |rels| :: rels[k].relType
  }

  /** Entering a name adds it to the written names, with a new node exactly
    * when it is new, and keeps the relationships, the nodes and the ids
    * already there. */
  lemma EnteredShape(s: Store, name: string)
    ensures var r := Entered(s, name);
      Names(r) == Names(s) + {name} &&
      |r.nodes| - |s.nodes| == |Names(r)| - |Names(s)| &&
      r.rels == s.rels && r.nodes[..|s.nodes|] == s.nodes &&
      (forall n :: n in s.ids ==> r.ids[n] == s.ids[n])
  {
    if name !in s.ids {
      assert Names(NewNode(s, name)) == Names(s) + {name};
    }
  }

  /** Entering a name keeps the store well formed. */
  lemma EnteredWellFormed(s: Store, name: string)
    requires WellFormed(s)
    ensures WellFormed(Entered(s, name))
  {
    if name !in s.ids {
      var r := NewNode(s, name);
      assert TableSound(r);
      assert TableComplete(r) by {
        forall i | 0 <= i < |r.nodes| ensures r.nodes[i].name in r.ids && r.ids[r.nodes[i].name] == i {
          if i < |s.nodes| {
            assert r.nodes[i] == s.nodes[i];
          }
        }
      }
      assert Labelled(r);
    }
  }

  /** Writing one triple adds the head and tail to the written names, with
    * one new node per new name. */
  lemma AddTripleShape(s: Store, t: Triple)
    ensures var s' := AddTriple(s, t);
      Names(s') == Names(s) + {t.head, t.tail} &&
      |s'.nodes| - |s.nodes| == |Names(s')| - |Names(s)|
  {
    EnteredShape(s, t.head);
    EnteredShape(Entered(s, t.head), t.tail);
  }

  /** Writing one triple keeps the nodes already there and adds one
    * relationship of the triple's relation from the head's node to the
    * tail's. */
  lemma AddTripleKeeps(s: Store, t: Triple)
    ensures var s' := AddTriple(s, t);
      s'.nodes[..|s.nodes|] == s.nodes &&
      s'.rels == s.rels + [RelRecord(s'.ids[t.head], t.relation, s'.ids[t.tail])]
  {
    var s1 := Entered(s, t.head);
    EnteredShape(s, t.head);
    EnteredShape(s1, t.tail);
    var s2 := Entered(s1, t.tail);
    assert s2.nodes[..|s.nodes|] == s1.nodes[..|s1.nodes|][..|s.nodes|];
  }

  /** Writing one triple keeps the store well formed, and the new
    * relationship leaves the head's node for the tail's. */
  lemma AddTripleWellFormed(s: Store, t: Triple)
    requires WellFormed(s)
    ensures var s' := AddTriple(s, t);
      WellFormed(s') && s'.nodes[s'.ids[t.head]].name == t.head && s'.nodes[s'.ids[t.tail]].name == t.tail
  {
    var s1 := Entered(s, t.head);
    EnteredWellFormed(s, t.head);
    EnteredWellFormed(s1, t.tail);
    var s2 := Entered(s1, t.tail);
    var s' := AddTriple(s, t);
    assert TableSound(s2);
    assert RelsJoinNodes(s') by {
      forall k | 0 <= k < |s'.rels| ensures 0 <= s'.rels[k].src < |s'.nodes| && 0 <= s'.rels[k].dst < |s'.nodes| {
        if k < |s2.rels| {
          assert s'.rels[k] == s2.rels[k];
        }
      }
    }
  }

  /** Triples written in turn. */
  function Steps(s: Store, ts: seq<Triple>): Store
  {
    if ts == [] then s else AddTriple(Steps(s, ts[..|ts| - 1]), ts[|ts| - 1])
  }

  lemma RelTypesSnoc(rels: seq<RelRecord>, rel: RelRecord)
    ensures RelTypes(rels + [rel]) == RelTypes(rels) + {rel.relType}
  {
    assert forall k :: 0 <= k < |rels| ==> (rels + [rel])[k] == rels[k];
    assert (rels + [rel])[|rels|] == rel;
  }

  lemma GetNodesAdd(ts: set<Triple>, t: Triple)
    ensures GetNodes(ts + {t}) == GetNodes(ts) + {t.head, t.tail}
  {
  }

  lemma GetRelationshipTypesAdd(ts: set<Triple>, t: Triple)
    ensures GetRelationshipTypes(ts + {t}) == GetRelationshipTypes(ts) + {t.relation}
  {
  }

  /** Writing a sequence of triples keeps the store well formed. */
  lemma {:induction false} StepsWellFormed(s: Store, ts: seq<Triple>)
    requires WellFormed(s)
    ensures WellFormed(Steps(s, ts))
  {
    if ts != [] {
      var n := |ts| - 1;
      StepsWellFormed(s, ts[..n]);
      AddTripleWellFormed(Steps(s, ts[..n]), ts[n]);
    }
  }

  /** Writing a sequence of triples adds their names. */
  lemma {:induction false} StepsNames(s: Store, ts: seq<Triple>)
    ensures Names(Steps(s, ts)) == Names(s) + GetNodes(TriplesOf(ts))
  {
    if ts == [] {
      assert TriplesOf(ts) == {};
    } else {
      var n := |ts| - 1;
      StepsNames(s, ts[..n]);
      AddTripleShape(Steps(s, ts[..n]), ts[n]);
      TriplesOfSnoc(ts);
      GetNodesAdd(TriplesOf(ts[..n]), ts[n]);
    }
  }

  /** Writing a sequence of triples creates one node per new name. */
  lemma {:induction false} StepsNodeCount(s: Store, ts: seq<Triple>)
    ensures |Steps(s, ts).nodes| - |s.nodes| == |Names(Steps(s, ts))| - |Names(s)|
  {
    if ts != [] {
      var n := |ts| - 1;
      StepsNodeCount(s, ts[..n]);
      AddTripleShape(Steps(s, ts[..n]), ts[n]);
    }
  }

  /** Writing a sequence of triples adds one relationship per triple and the
    * triples' relations to the relationship types. */
  lemma {:induction false} StepsRels(s: Store, ts: seq<Triple>)
    ensures var s' := Steps(s, ts);
      |s'.rels| == |s.rels| + |ts| &&
      RelTypes(s'.rels) == RelTypes(s.rels) + GetRelationshipTypes(TriplesOf(ts))
  {
    if ts == [] {
      assert TriplesOf(ts) == {};
    } else {
      var n := |ts| - 1;
      var mid := Steps(s, ts[..n]);
      StepsRels(s, ts[..n]);
      AddTripleKeeps(mid, ts[n]);
      var s' := Steps(s, ts);
      RelTypesSnoc(mid.rels, s'.rels[|s'.rels| - 1]);
      TriplesOfSnoc(ts);
      GetRelationshipTypesAdd(TriplesOf(ts[..n]), ts[n]);
    }
  }

  /** From the empty table, writing the triples in any order creates one node
    * per distinct head or tail name, one relationship per triple, and
    * exactly the triples' relation types. */
  lemma WriteFromEmpty(ts: seq<Triple>, triples: set<Triple>)
    requires Enumerates(ts, triples)
    ensures var s := Steps(Empty, ts);
      WellFormed(s) && |s.nodes| == |GetNodes(triples)| && |s.rels| == |triples| &&
      RelTypes(s.rels) == GetRelationshipTypes(triples)
  {
    StepsWellFormed(Empty, ts);
    StepsNames(Empty, ts);
    StepsNodeCount(Empty, ts);
    StepsRels(Empty, ts);
    assert TriplesOf(ts) == triples;
    EnumeratesSize(ts, triples);
  }

  /** The static name -> id map of the builder together with the graph it
    * writes to. */
  class GraphWriter {
    var ids: map<string, int>
    var nodes: seq<NodeRecord>
    var rels: seq<RelRecord>

    function State(): Store
      reads this
    {
      Store(ids, nodes, rels)
    }

    /** The empty map of a freshly loaded class and an empty graph. */
    constructor ()
      ensures State() == Empty
    {
      ids, nodes, rels := map[], [], [];
    }

    /** The forEach body of writeToGraph as the source has it. */
    method WriteTripleAsWritten(t: Triple)
      modifies this
      ensures State() == AddTripleAsWritten(old(State()), t)
    {
      var table, all, edges := ids, nodes, rels;
      var headNode: Option<int> := if t.head in table then Some(table[t.head]) else None;
      var tailNode: Option<int> := if t.tail in table then Some(table[t.tail]) else None;
      if headNode.None? {
        headNode := Some(|all|);
        all := all + [NodeRecord(t.head, [EntityLabel])];
        table := table[t.head := headNode.value];
      }
      if tailNode.None? {
        tailNode := Some(|all|);
        all := all + [NodeRecord(t.tail, [EntityLabel])];
        table := table[t.tail := tailNode.value];
      }
      edges := edges + [RelRecord(headNode.value, t.relation, tailNode.value)];
      ids, nodes, rels := table, all, edges;
    }

    /** The forEach body with the tail looked up after the head is entered. */
    method WriteTriple(t: Triple)
      modifies this
      ensures State() == AddTriple(old(State()), t)
    {
      var table, all, edges := ids, nodes, rels;
      var headNode: Option<int> := if t.head in table then Some(table[t.head]) else None;
      if headNode.None? {
        headNode := Some(|all|);
        all := all + [NodeRecord(t.head, [EntityLabel])];
        table := table[t.head := headNode.value];
      }
      var tailNode: Option<int> := if t.tail in table then Some(table[t.tail]) else None;
      if tailNode.None? {
        tailNode := Some(|all|);
        all := all + [NodeRecord(t.tail, [EntityLabel])];
        table := table[t.tail := tailNode.value];
      }
      edges := edges + [RelRecord(headNode.value, t.relation, tailNode.value)];
      ids, nodes, rels := table, all, edges;
    }

    /** writeToGraph with single name properties: the triples in the order
    * the set is visited, each written in turn. */
    method WriteToGraph(triples: set<Triple>) returns (order: seq<Triple>)
      modifies this
      ensures Enumerates(order, triples)
      ensures State() == Steps(old(State()), order)
    {
      order := Enumerate(triples);
      for i := 0 to |order|
        invariant State() == Steps(old(State()), order[..i])
      {
        assert order[..i + 1][..i] == order[..i];
        WriteTriple(order[i]);
      }
      assert order[..|order|] == order;
    }
  }
}
