/** The forward-declaration block: every pointer dependency of a resolved
    node that names a node of the graph is declared once, by its fixed
    name, with the keyword of that node's kind. */
module ForwardDecl {
  import opened Dia
  import opened WStrings
  import opened Output
  import opened Seqs

  /** A resolved node: the spellings of the types it depends on, in the
      iteration order of its dependency map. */
  datatype UdtNode = UdtNode(deps: seq<string>)

  /** The graph's nodes: type name -> the kind of that node's UDT symbol. */
  type UdtGraph = map<string, UdtKind>

  /** The graph key a dependency spelling is looked up under: every '*'
      removed, then trimmed. The key is what remains of the spelling's
      other characters, in order, once the white space around them is
      stripped. */
  function DepKey(dep: string): (key: string)
    ensures '*' !in key
    ensures exists a :: SpacePadded(Filter(dep, Except('*')), a, key)
    ensures key == [] || (!IsSpace(key[0]) && !IsSpace(key[|key| - 1]))
  {
    TrimKeepsAbsent(RemoveAll(dep, "*"), '*');
    RemoveAllChar(dep, '*');
    assert "*" == ['*'];
    Trim(RemoveAll(dep, "*"))
  }

  /** The conditions under which a dependency spelling yields a declaration. */
  predicate Qualifies(dep: string, graph: UdtGraph, fixName: string -> string, isAllowedName: string -> bool)
  {
    && EndsWith(dep, '*')
    && isAllowedName(dep)
    && !StartsWith(dep, "void")
    && DepKey(dep) in graph
    && fixName(DepKey(dep)) != []
  }

  /** The declaration a qualifying dependency asks for. */
  function DeclFor(dep: string, graph: UdtGraph, fixName: string -> string): Item
    requires DepKey(dep) in graph
  {
    FwdDecl(graph[DepKey(dep)], fixName(DepKey(dep)))
  }

  /** Every dependency spelling of the nodes, in visiting order. */
  function AllDeps(nodes: seq<UdtNode>): seq<string>
  {
    if nodes == [] then [] else nodes[0].deps + AllDeps(nodes[1..])
  }

  lemma {:induction false} AllDepsMembers(nodes: seq<UdtNode>, dep: string)
    ensures dep in AllDeps(nodes) <==> exists i :: 0 <= i < |nodes| && dep in nodes[i].deps
  {
    if nodes != [] {
      AllDepsMembers(nodes[1..], dep);
      if dep in AllDeps(nodes[1..]) {
        var i :| 0 <= i < |nodes[1..]| && dep in nodes[1..][i].deps;
        assert dep in nodes[i + 1].deps;
      }
      if exists i :: 0 <= i < |nodes| && dep in nodes[i].deps {
        var i :| 0 <= i < |nodes| && dep in nodes[i].deps;
        if i > 0 {
          assert dep in nodes[1..][i - 1].deps;
        }
      }
    }
  }

  /** The declaration of every qualifying dependency, in order, repeats kept. */
  function Candidates(deps: seq<string>, graph: UdtGraph, fixName: string -> string, isAllowedName: string -> bool): (c: seq<Item>)
    ensures forall k :: 0 <= k < |c| ==> c[k].FwdDecl?
  {
    if deps == [] then []
    else
      (if Qualifies(deps[0], graph, fixName, isAllowedName) then [DeclFor(deps[0], graph, fixName)] else [])
      + Candidates(deps[1..], graph, fixName, isAllowedName)
  }

  lemma {:induction false} CandidatesMembers(deps: seq<string>, graph: UdtGraph, fixName: string -> string,
                                             isAllowedName: string -> bool, it: Item)
    ensures it in Candidates(deps, graph, fixName, isAllowedName) <==>
            exists dep :: dep in deps && Qualifies(dep, graph, fixName, isAllowedName) && it == DeclFor(dep, graph, fixName)
  {
    if deps != [] {
      CandidatesMembers(deps[1..], graph, fixName, isAllowedName, it);
      assert forall dep :: dep in deps <==> dep == deps[0] || dep in deps[1..];
    }
  }

  /** The names of the declarations in `items`. */
  function DeclNames(items: seq<Item>): set<string>
  {
    set it | it in items && it.FwdDecl? :: it.name
  }

  /** The declarations of `decls` whose name is neither in `seen` nor
      declared earlier: the first declaration of each new name. */
  function FirstOccurrences(decls: seq<Item>, seen: set<string>): (r: seq<Item>)
    requires forall k :: 0 <= k < |decls| ==> decls[k].FwdDecl?
    ensures forall it :: it in r ==> it in decls
    ensures forall k :: 0 <= k < |r| ==> r[k].FwdDecl? && r[k].name !in seen
    ensures forall i, j :: 0 <= i < j < |r| ==> r[i].name != r[j].name
  {
    if decls == [] then []
    else if decls[0].name in seen then FirstOccurrences(decls[1..], seen)
    else [decls[0]] + FirstOccurrences(decls[1..], seen + {decls[0].name})
  }

  lemma {:induction false} FirstOccurrencesNames(decls: seq<Item>, seen: set<string>)
    requires forall k :: 0 <= k < |decls| ==> decls[k].FwdDecl?
    ensures DeclNames(FirstOccurrences(decls, seen)) == DeclNames(decls) - seen
  {
    if decls != [] {
      var x := decls[0];
      assert DeclNames(decls) == {x.name} + DeclNames(decls[1..]) by {
        assert forall it :: it in decls <==> it == x || it in decls[1..];
      }
      if x.name in seen {
        FirstOccurrencesNames(decls[1..], seen);
      } else {
        FirstOccurrencesNames(decls[1..], seen + {x.name});
        var rest := FirstOccurrences(decls[1..], seen + {x.name});
        assert DeclNames([x] + rest) == {x.name} + DeclNames(rest) by {
          assert forall it :: it in [x] + rest <==> it == x || it in rest;
        }
      }
    }
  }

  /** One dependency processed: either it adds a new declaration to the
      emitted ones and its name to `seen`, or nothing changes. */
  lemma StepOne(emitted: seq<Item>, dep: string, rest: seq<string>, seen: set<string>,
                graph: UdtGraph, fixName: string -> string, isAllowedName: string -> bool)
    ensures Candidates([dep] + rest, graph, fixName, isAllowedName)
            == (if Qualifies(dep, graph, fixName, isAllowedName) then [DeclFor(dep, graph, fixName)] else [])
               + Candidates(rest, graph, fixName, isAllowedName)
    ensures Qualifies(dep, graph, fixName, isAllowedName) && fixName(DepKey(dep)) !in seen ==>
              emitted + FirstOccurrences(Candidates([dep] + rest, graph, fixName, isAllowedName), seen)
              == (emitted + [DeclFor(dep, graph, fixName)])
                 + FirstOccurrences(Candidates(rest, graph, fixName, isAllowedName), seen + {fixName(DepKey(dep))})
    ensures !(Qualifies(dep, graph, fixName, isAllowedName) && fixName(DepKey(dep)) !in seen) ==>
              FirstOccurrences(Candidates([dep] + rest, graph, fixName, isAllowedName), seen)
              == FirstOccurrences(Candidates(rest, graph, fixName, isAllowedName), seen)
  {
    assert ([dep] + rest)[1..] == rest;
    var tail := Candidates(rest, graph, fixName, isAllowedName);
    if Qualifies(dep, graph, fixName, isAllowedName) {
      var d := DeclFor(dep, graph, fixName);
      assert ([d] + tail)[0] == d && ([d] + tail)[1..] == tail;
      assert Candidates([dep] + rest, graph, fixName, isAllowedName) == [d] + tail;
      if d.name in seen {
        assert FirstOccurrences([d] + tail, seen) == FirstOccurrences(tail, seen);
      }
    } else {
      assert Candidates([dep] + rest, graph, fixName, isAllowedName) == tail;
    }
  }

  /** What the block holds: the first declaration of each qualifying name,
      then a blank line when there is at least one. */
  function ForwardDeclBlock(resolved: seq<UdtNode>, graph: UdtGraph, fixName: string -> string,
                            isAllowedName: string -> bool): seq<Item>
  {
    var decls := FirstOccurrences(Candidates(AllDeps(resolved), graph, fixName, isAllowedName), {});
    decls + (if decls == [] then [] else [Blank])
  }

  /** No name is declared twice, and the blank line closes the block
      exactly when it holds a declaration. */
  lemma BlockShape(resolved: seq<UdtNode>, graph: UdtGraph, fixName: string -> string,
                   isAllowedName: string -> bool)
    ensures var out := ForwardDeclBlock(resolved, graph, fixName, isAllowedName);
            && (forall i, j :: 0 <= i < j < |out| && out[i].FwdDecl? && out[j].FwdDecl? ==> out[i].name != out[j].name)
            && (Blank in out <==> exists k :: 0 <= k < |out| && out[k].FwdDecl?)
            && (out == [] || out[|out| - 1] == Blank)
  {
    var decls := FirstOccurrences(Candidates(AllDeps(resolved), graph, fixName, isAllowedName), {});
    var out := ForwardDeclBlock(resolved, graph, fixName, isAllowedName);
    assert Blank !in decls;
    if decls != [] {
      assert out[0] == decls[0];
    } else {
      assert out == [];
    }
  }

  /** One dependency of the inner loop of CppProxyPrintForwardDecl: the
      declaration is emitted when the dependency qualifies and its fixed
      name is new. Whatever follows (`rest`) then declares exactly what it
      would have declared after the dependency. */
  method PrintDep(dep: string, ghost rest: seq<string>, graph: UdtGraph,
                  fixName: string -> string, isAllowedName: string -> bool,
                  uniq0: set<string>, out0: seq<Item>, count0: nat)
    returns (uniq: set<string>, out: seq<Item>, count: nat)
    requires forall k :: 0 <= k < |out0| ==> out0[k].FwdDecl?
    requires uniq0 == DeclNames(out0) && count0 == |out0|
    ensures forall k :: 0 <= k < |out| ==> out[k].FwdDecl?
    ensures uniq == DeclNames(out) && count == |out|
    ensures out + FirstOccurrences(Candidates(rest, graph, fixName, isAllowedName), uniq)
            == out0 + FirstOccurrences(Candidates([dep] + rest, graph, fixName, isAllowedName), uniq0)
  {
    StepOne(out0, dep, rest, uniq0, graph, fixName, isAllowedName);
    uniq, out, count := uniq0, out0, count0;
    if EndsWith(dep, '*') && isAllowedName(dep) && !StartsWith(dep, "void") {
      var name := Trim(RemoveAll(dep, "*"));
      assert name == DepKey(dep);
      if name in graph {
        var fixedName := fixName(name);
        if fixedName != [] && fixedName !in uniq {
          assert Qualifies(dep, graph, fixName, isAllowedName);
          uniq := uniq + {fixedName};
          out := out + [FwdDecl(graph[name], fixedName)];
          count := count + 1;
          assert DeclNames(out) == DeclNames(out0) + {fixedName} by {
            assert forall it :: it in out <==> it in out0 || it == FwdDecl(graph[name], fixedName);
          }
        }
      }
    }
  }

  /** The inner loop of CppProxyPrintForwardDecl: the dependencies of one
      resolved node. Whatever follows them (`later`) would then declare
      exactly what it would have declared after the whole node. */
  method PrintNodeDecls(deps: seq<string>, ghost later: seq<string>, graph: UdtGraph,
                        fixName: string -> string, isAllowedName: string -> bool,
                        uniq0: set<string>, out0: seq<Item>, count0: nat)
    returns (uniq: set<string>, out: seq<Item>, count: nat)
    requires forall k :: 0 <= k < |out0| ==> out0[k].FwdDecl?
    requires uniq0 == DeclNames(out0) && count0 == |out0|
    ensures forall k :: 0 <= k < |out| ==> out[k].FwdDecl?
    ensures uniq == DeclNames(out) && count == |out|
    ensures out + FirstOccurrences(Candidates(later, graph, fixName, isAllowedName), uniq)
            == out0 + FirstOccurrences(Candidates(deps + later, graph, fixName, isAllowedName), uniq0)
  {
    uniq, out, count := uniq0, out0, count0;
    var j := 0;
    while j < |deps|
      invariant 0 <= j <= |deps|
      invariant forall k :: 0 <= k < |out| ==> out[k].FwdDecl?
      invariant out + FirstOccurrences(Candidates(deps[j..] + later, graph, fixName, isAllowedName), uniq)
                == out0 + FirstOccurrences(Candidates(deps + later, graph, fixName, isAllowedName), uniq0)
      invariant uniq == DeclNames(out)
      invariant count == |out|
    {
      assert deps[j..] + later == [deps[j]] + (deps[j + 1..] + later);
      uniq, out, count := PrintDep(deps[j], deps[j + 1..] + later, graph, fixName, isAllowedName, uniq, out, count);
      j := j + 1;
    }
    assert deps[j..] + later == later;
  }

  /** The declaration loop of CppProxyPrintForwardDecl: every qualifying
      dependency of every resolved node, in order, first occurrence only. */
  method PrintDecls(resolved: seq<UdtNode>, graph: UdtGraph, fixName: string -> string,
                    isAllowedName: string -> bool) returns (out: seq<Item>, count: nat)
    ensures out == FirstOccurrences(Candidates(AllDeps(resolved), graph, fixName, isAllowedName), {})
    ensures count == |out|
  {
    ghost var all := Candidates(AllDeps(resolved), graph, fixName, isAllowedName);
    var uniq: set<string> := {};
    count := 0;
    out := [];
    var i := 0;
    while i < |resolved|
      invariant 0 <= i <= |resolved|
      invariant forall k :: 0 <= k < |out| ==> out[k].FwdDecl?
      invariant out + FirstOccurrences(Candidates(AllDeps(resolved[i..]), graph, fixName, isAllowedName), uniq)
                == FirstOccurrences(all, {})
      invariant uniq == DeclNames(out)
      invariant count == |out|
    {
      assert AllDeps(resolved[i..]) == resolved[i].deps + AllDeps(resolved[i + 1..]) by {
        assert resolved[i..][1..] == resolved[i + 1..];
      }
      uniq, out, count := PrintNodeDecls(resolved[i].deps, AllDeps(resolved[i + 1..]), graph, fixName, isAllowedName,
                                         uniq, out, count);
      i := i + 1;
    }
    assert resolved[i..] == [];
  }

  /** CppProxyPrintForwardDecl */
  method PrintForwardDecl(resolved: seq<UdtNode>, graph: UdtGraph, fixName: string -> string,
                          isAllowedName: string -> bool) returns (out: seq<Item>)
    ensures out == ForwardDeclBlock(resolved, graph, fixName, isAllowedName)
    ensures forall i, j :: 0 <= i < j < |out| && out[i].FwdDecl? && out[j].FwdDecl? ==> out[i].name != out[j].name
    ensures Blank in out <==> exists k :: 0 <= k < |out| && out[k].FwdDecl?
    ensures out == [] || out[|out| - 1] == Blank
  {
    var count;
    out, count := PrintDecls(resolved, graph, fixName, isAllowedName);
    if count != 0 {
      out := out + [Blank];
    }
    BlockShape(resolved, graph, fixName, isAllowedName);
  }

  /** A declared name is the fixed name of some qualifying dependency of
      some resolved node, and every such name is declared. */
  lemma DeclaredIffQualifies(resolved: seq<UdtNode>, graph: UdtGraph, fixName: string -> string,
                             isAllowedName: string -> bool, n: string)
    ensures n in DeclNames(ForwardDeclBlock(resolved, graph, fixName, isAllowedName)) <==>
            exists i, j :: 0 <= i < |resolved| && 0 <= j < |resolved[i].deps|
                           && Qualifies(resolved[i].deps[j], graph, fixName, isAllowedName)
                           && fixName(DepKey(resolved[i].deps[j])) == n
  {
    var cands := Candidates(AllDeps(resolved), graph, fixName, isAllowedName);
    FirstOccurrencesNames(cands, {});
    BlockNames(resolved, graph, fixName, isAllowedName);
    if n in DeclNames(cands) {
      CandidateNameQualifies(resolved, graph, fixName, isAllowedName, n);
    }
    if exists i, j :: 0 <= i < |resolved| && 0 <= j < |resolved[i].deps|
                      && Qualifies(resolved[i].deps[j], graph, fixName, isAllowedName)
                      && fixName(DepKey(resolved[i].deps[j])) == n {
      var i, j :| 0 <= i < |resolved| && 0 <= j < |resolved[i].deps|
                  && Qualifies(resolved[i].deps[j], graph, fixName, isAllowedName)
                  && fixName(DepKey(resolved[i].deps[j])) == n;
      QualifyingNameCandidate(resolved, graph, fixName, isAllowedName, i, j);
    }
  }

  /** The names declared in the block are those of its first occurrences. */
  lemma BlockNames(resolved: seq<UdtNode>, graph: UdtGraph, fixName: string -> string, isAllowedName: string -> bool)
    ensures DeclNames(ForwardDeclBlock(resolved, graph, fixName, isAllowedName))
            == DeclNames(FirstOccurrences(Candidates(AllDeps(resolved), graph, fixName, isAllowedName), {}))
  {
    var decls := FirstOccurrences(Candidates(AllDeps(resolved), graph, fixName, isAllowedName), {});
    var block := ForwardDeclBlock(resolved, graph, fixName, isAllowedName);
    assert forall it :: it in block && it.FwdDecl? <==> it in decls && it.FwdDecl?;
  }

  /** A candidate name comes from a qualifying dependency of a resolved node. */
  lemma CandidateNameQualifies(resolved: seq<UdtNode>, graph: UdtGraph, fixName: string -> string,
                               isAllowedName: string -> bool, n: string)
    requires n in DeclNames(Candidates(AllDeps(resolved), graph, fixName, isAllowedName))
    ensures exists i, j :: 0 <= i < |resolved| && 0 <= j < |resolved[i].deps|
                           && Qualifies(resolved[i].deps[j], graph, fixName, isAllowedName)
                           && fixName(DepKey(resolved[i].deps[j])) == n
  {
    var all := AllDeps(resolved);
    var cands := Candidates(all, graph, fixName, isAllowedName);
    var it :| it in cands && it.FwdDecl? && it.name == n;
    CandidatesMembers(all, graph, fixName, isAllowedName, it);
    var dep :| dep in all && Qualifies(dep, graph, fixName, isAllowedName) && it == DeclFor(dep, graph, fixName);
    AllDepsMembers(resolved, dep);
    var i :| 0 <= i < |resolved| && dep in resolved[i].deps;
    var j :| 0 <= j < |resolved[i].deps| && resolved[i].deps[j] == dep;
  }

  /** A qualifying dependency of a resolved node yields a candidate name. */
  lemma QualifyingNameCandidate(resolved: seq<UdtNode>, graph: UdtGraph, fixName: string -> string,
                                isAllowedName: string -> bool, i: nat, j: nat)
    requires i < |resolved| && j < |resolved[i].deps|
    requires Qualifies(resolved[i].deps[j], graph, fixName, isAllowedName)
    ensures fixName(DepKey(resolved[i].deps[j])) in DeclNames(Candidates(AllDeps(resolved), graph, fixName, isAllowedName))
  {
    var all := AllDeps(resolved);
    var dep := resolved[i].deps[j];
    AllDepsMembers(resolved, dep);
    CandidatesMembers(all, graph, fixName, isAllowedName, DeclFor(dep, graph, fixName));
    assert DeclFor(dep, graph, fixName) in Candidates(all, graph, fixName, isAllowedName);
  }


  /** Every declaration names a node of the graph with that node's kind,
      reached through a qualifying dependency. */
  lemma DeclaredKindFromGraph(resolved: seq<UdtNode>, graph: UdtGraph, fixName: string -> string,
                              isAllowedName: string -> bool, it: Item)
    requires it in ForwardDeclBlock(resolved, graph, fixName, isAllowedName) && it.FwdDecl?
    ensures exists dep :: dep in AllDeps(resolved) && Qualifies(dep, graph, fixName, isAllowedName)
                          && it.name == fixName(DepKey(dep)) && it.kind == graph[DepKey(dep)]
  {
    var all := AllDeps(resolved);
    CandidatesMembers(all, graph, fixName, isAllowedName, it);
  }
}
