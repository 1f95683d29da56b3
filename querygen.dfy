/**
 * Example-query templates (cql/querygen.go): for each of the four relation
 * kinds, a CQL token query `[name="value" & ...]` that finds the query word
 * together with one candidate collocate. Values are inserted verbatim.
 */
module Cql {
  import Strings
  import opened Conf
  import opened Common

  /** The four relation kinds the service answers. */
  datatype Relation = NounsModifiedByRel | ModifiersOfRel | VerbsSubjectRel | VerbsObjectRel

  /** `name="value"`, the value written as is. */
  function Attr(name: string, value: string): string
  {
    name + "=\"" + value + "\""
  }

  /** `[%s]`: the brackets of a token query. */
  function Bracket(body: string): string
  {
    "[" + body + "]"
  }

  /** A token query from (attribute, value) clauses: `[` clauses joined by ` & ` `]`. */
  function Render(clauses: seq<(string, string)>): string
  {
    Bracket(Strings.Join(seq(|clauses|, i requires 0 <= i < |clauses| => Attr(clauses[i].0, clauses[i].1)), " & "))
  }

  /** `cql.NounsModifiedBy`. */
  function NounsModifiedBy(conf: SyntaxProps, word: Word, collCandidate: string): (r: string)
    ensures r == Render(Clauses(NounsModifiedByRel, conf, word, collCandidate))
  {
    RenderFourOrFive(Clauses(NounsModifiedByRel, conf, word, collCandidate));
    if word.pos == "" then
      Bracket(Attr(conf.lemmaAttr.name, word.v)
             + " & " + Attr(conf.parLemmaAttr.name, collCandidate)
             + " & " + Attr(conf.funcAttr.name, conf.nounModifiedValue)
             + " & " + Attr(conf.parPosAttr.name, conf.nounValue))
    else
      Bracket(Attr(conf.lemmaAttr.name, word.v)
             + " & " + Attr(conf.posAttr.name, word.pos)
             + " & " + Attr(conf.parLemmaAttr.name, collCandidate)
             + " & " + Attr(conf.funcAttr.name, conf.nounModifiedValue)
             + " & " + Attr(conf.parPosAttr.name, conf.nounValue))
  }

  /** `cql.ModifiersOf`. */
  function ModifiersOf(conf: SyntaxProps, word: Word, collCandidate: string): (r: string)
    ensures r == Render(Clauses(ModifiersOfRel, conf, word, collCandidate))
  {
    RenderFourOrFive(Clauses(ModifiersOfRel, conf, word, collCandidate));
    if word.pos == "" then
      Bracket(Attr(conf.parLemmaAttr.name, word.v)
             + " & " + Attr(conf.funcAttr.name, conf.nounModifiedValue)
             + " & " + Attr(conf.posAttr.name, conf.nounValue)
             + " & " + Attr(conf.lemmaAttr.name, collCandidate))
    else
      Bracket(Attr(conf.parLemmaAttr.name, word.v)
             + " & " + Attr(conf.parPosAttr.name, word.pos)
             + " & " + Attr(conf.funcAttr.name, conf.nounModifiedValue)
             + " & " + Attr(conf.posAttr.name, conf.nounValue)
             + " & " + Attr(conf.lemmaAttr.name, collCandidate))
  }

  /** `cql.VerbsObject`. */
  function VerbsObject(conf: SyntaxProps, word: Word, collCandidate: string): (r: string)
    ensures r == Render(Clauses(VerbsObjectRel, conf, word, collCandidate))
  {
    RenderFourOrFive(Clauses(VerbsObjectRel, conf, word, collCandidate));
    if word.pos == "" then
      Bracket(Attr(conf.lemmaAttr.name, word.v)
             + " & " + Attr(conf.funcAttr.name, conf.nounObjectValue)
             + " & " + Attr(conf.parPosAttr.name, conf.verbValue)
             + " & " + Attr(conf.parLemmaAttr.name, collCandidate))
    else
      Bracket(Attr(conf.lemmaAttr.name, word.v)
             + " & " + Attr(conf.posAttr.name, word.pos)
             + " & " + Attr(conf.funcAttr.name, conf.nounObjectValue)
             + " & " + Attr(conf.parPosAttr.name, conf.verbValue)
             + " & " + Attr(conf.parLemmaAttr.name, collCandidate))
  }

  /** `cql.VerbsSubject`. */
  function VerbsSubject(conf: SyntaxProps, word: Word, collCandidate: string): (r: string)
    ensures r == Render(Clauses(VerbsSubjectRel, conf, word, collCandidate))
  {
    RenderFourOrFive(Clauses(VerbsSubjectRel, conf, word, collCandidate));
    if word.pos == "" then
      Bracket(Attr(conf.lemmaAttr.name, word.v)
             + " & " + Attr(conf.funcAttr.name, conf.nounSubjectValue)
             + " & " + Attr(conf.parPosAttr.name, conf.verbValue)
             + " & " + Attr(conf.parLemmaAttr.name, collCandidate))
    else
      Bracket(Attr(conf.lemmaAttr.name, word.v)
             + " & " + Attr(conf.posAttr.name, word.pos)
             + " & " + Attr(conf.funcAttr.name, conf.nounSubjectValue)
             + " & " + Attr(conf.parPosAttr.name, conf.verbValue)
             + " & " + Attr(conf.parLemmaAttr.name, collCandidate))
  }

  /** The generator belonging to a relation kind. */
  function Generate(rel: Relation, conf: SyntaxProps, word: Word, collCandidate: string): (r: string)
    ensures r == Render(Clauses(rel, conf, word, collCandidate))
  {
    match rel
    case NounsModifiedByRel => NounsModifiedBy(conf, word, collCandidate)
    case ModifiersOfRel => ModifiersOf(conf, word, collCandidate)
    case VerbsSubjectRel => VerbsSubject(conf, word, collCandidate)
    case VerbsObjectRel => VerbsObject(conf, word, collCandidate)
  }

  /** Whether the query word is the child (true) or the parent (false) of the relation. */
  function WordIsChild(rel: Relation): bool
  {
    !rel.ModifiersOfRel?
  }

  /** The relation value the template asks for. */
  function RelationValue(rel: Relation, conf: SyntaxProps): string
  {
    match rel
    case NounsModifiedByRel => conf.nounModifiedValue
    case ModifiersOfRel => conf.nounModifiedValue
    case VerbsSubjectRel => conf.nounSubjectValue
    case VerbsObjectRel => conf.nounObjectValue
  }

  /**
   * The reference description of a template: the word on the lemma attribute
   * of its own side, then its PoS on the PoS attribute of that side when a
   * PoS was given, then the relation kind's remaining clauses, one of which
   * holds the candidate on the lemma attribute of the other side.
   */
  function Clauses(rel: Relation, conf: SyntaxProps, word: Word, collCandidate: string): seq<(string, string)>
  {
    var own := if WordIsChild(rel) then (conf.lemmaAttr.name, conf.posAttr.name)
               else (conf.parLemmaAttr.name, conf.parPosAttr.name);
    var rest := match rel
      case NounsModifiedByRel =>
        [(conf.parLemmaAttr.name, collCandidate), (conf.funcAttr.name, RelationValue(rel, conf)),
         (conf.parPosAttr.name, conf.nounValue)]
      case ModifiersOfRel =>
        [(conf.funcAttr.name, RelationValue(rel, conf)), (conf.posAttr.name, conf.nounValue),
         (conf.lemmaAttr.name, collCandidate)]
      case _ =>
        [(conf.funcAttr.name, RelationValue(rel, conf)), (conf.parPosAttr.name, conf.verbValue),
         (conf.parLemmaAttr.name, collCandidate)];
    [(own.0, word.v)] + (if word.pos != "" then [(own.1, word.pos)] else []) + rest
  }

  lemma Join4(a: string, b: string, c: string, d: string, sep: string)
    ensures Strings.Join([a, b, c, d], sep) == a + sep + b + sep + c + sep + d
  {
    Strings.JoinSnoc([a], b, sep);
    assert [a] + [b] == [a, b];
    Strings.JoinSnoc([a, b], c, sep);
    assert [a, b] + [c] == [a, b, c];
    Strings.JoinSnoc([a, b, c], d, sep);
    assert [a, b, c] + [d] == [a, b, c, d];
  }

  lemma Join5(a: string, b: string, c: string, d: string, e: string, sep: string)
    ensures Strings.Join([a, b, c, d, e], sep) == a + sep + b + sep + c + sep + d + sep + e
  {
    Join4(a, b, c, d, sep);
    Strings.JoinSnoc([a, b, c, d], e, sep);
    assert [a, b, c, d] + [e] == [a, b, c, d, e];
  }

  /** A four- or five-clause query written out clause by clause. */
  lemma RenderFourOrFive(cs: seq<(string, string)>)
    ensures |cs| == 4 ==> Render(cs) == Bracket(Attr(cs[0].0, cs[0].1) + " & " + Attr(cs[1].0, cs[1].1)
                                                + " & " + Attr(cs[2].0, cs[2].1) + " & " + Attr(cs[3].0, cs[3].1))
    ensures |cs| == 5 ==> Render(cs) == Bracket(Attr(cs[0].0, cs[0].1) + " & " + Attr(cs[1].0, cs[1].1)
                                                + " & " + Attr(cs[2].0, cs[2].1) + " & " + Attr(cs[3].0, cs[3].1)
                                                + " & " + Attr(cs[4].0, cs[4].1))
  {
    var items := seq(|cs|, i requires 0 <= i < |cs| => Attr(cs[i].0, cs[i].1));
    if |cs| == 4 {
      assert items == [Attr(cs[0].0, cs[0].1), Attr(cs[1].0, cs[1].1), Attr(cs[2].0, cs[2].1), Attr(cs[3].0, cs[3].1)];
      Join4(items[0], items[1], items[2], items[3], " & ");
    } else if |cs| == 5 {
      assert items == [Attr(cs[0].0, cs[0].1), Attr(cs[1].0, cs[1].1), Attr(cs[2].0, cs[2].1), Attr(cs[3].0, cs[3].1),
                       Attr(cs[4].0, cs[4].1)];
      Join5(items[0], items[1], items[2], items[3], items[4], " & ");
    }
  }

  /**
   * With a PoS there are five clauses, the second being the PoS clause; the
   * template for the same word without a PoS is that list with the second
   * clause removed.
   */
  lemma PosClauseOnlyWithPos(rel: Relation, conf: SyntaxProps, v: string, pos: string, collCandidate: string)
    requires pos != ""
    ensures var withPos := Clauses(rel, conf, Word(v, pos), collCandidate);
            |withPos| == 5
            && withPos[1] == (if WordIsChild(rel) then conf.posAttr.name else conf.parPosAttr.name, pos)
            && Clauses(rel, conf, Word(v, ""), collCandidate) == withPos[..1] + withPos[2..]
  {
  }

  /**
   * The first clause holds the query word, on the lemma attribute for the
   * child-side kinds and on the parent-lemma attribute for ModifiersOf; the
   * candidate sits on the other side's lemma attribute, last for ModifiersOf,
   * and the relation clause carries the kind's relation value.
   */
  lemma ClauseRoles(rel: Relation, conf: SyntaxProps, word: Word, collCandidate: string)
    ensures var cs := Clauses(rel, conf, word, collCandidate);
            var k := if word.pos != "" then 1 else 0;
            && cs[0] == (if WordIsChild(rel) then conf.lemmaAttr.name else conf.parLemmaAttr.name, word.v)
            && (rel.ModifiersOfRel? ==> cs[|cs| - 1] == (conf.lemmaAttr.name, collCandidate))
            && (rel.NounsModifiedByRel? ==> cs[k + 1] == (conf.parLemmaAttr.name, collCandidate))
            && (rel.VerbsObjectRel? || rel.VerbsSubjectRel? ==> cs[|cs| - 1] == (conf.parLemmaAttr.name, collCandidate))
            && (exists i :: 0 <= i < |cs| && cs[i] == (conf.funcAttr.name, RelationValue(rel, conf)))
  {
    var cs := Clauses(rel, conf, word, collCandidate);
    var k := if word.pos != "" then 1 else 0;
    if rel.NounsModifiedByRel? {
      assert cs[k + 2] == (conf.funcAttr.name, RelationValue(rel, conf));
    } else {
      assert cs[k + 1] == (conf.funcAttr.name, RelationValue(rel, conf));
    }
  }
}
