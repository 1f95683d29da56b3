/**
 * Corpus configuration (engine/conf.go): the list of configured corpora,
 * the per-corpus syntax attribute naming, the first-match corpus lookup and
 * the check that every required syntax field is filled in.
 */
module Conf {
  import opened Wrappers

  /** A positional attribute: its name and its 1-based column in the vertical file. */
  datatype PosAttrProps = PosAttrProps(name: string, verticalCol: int)

  /** Which attributes carry lemma, PoS, parent data and relation, and the category values. */
  datatype SyntaxProps = SyntaxProps(
    parentIdxAttr: PosAttrProps,
    lemmaAttr: PosAttrProps,
    parLemmaAttr: PosAttrProps,
    posAttr: PosAttrProps,
    parPosAttr: PosAttrProps,
    funcAttr: PosAttrProps,
    nounValue: string,
    verbValue: string,
    nounModifiedValue: string,
    nounSubjectValue: string,
    nounObjectValue: string)

  datatype CorpusProps = CorpusProps(name: string, size: int, syntax: SyntaxProps)

  /** `CorporaConf`: the configured corpora, in configuration order. */
  type CorporaConf = seq<CorpusProps>

  /**
   * `CorporaConf.GetCorpusProps`: the first corpus whose name is `corpusID`,
   * or None when no corpus has that name.
   */
  function GetCorpusProps(cp: CorporaConf, corpusID: string): (r: Option<CorpusProps>)
    ensures r.None? <==> forall i :: 0 <= i < |cp| ==> cp[i].name != corpusID
    ensures r.Some? ==> exists i :: 0 <= i < |cp| && cp[i] == r.value && FirstNamed(cp, corpusID, i)
  {
    if |cp| == 0 then None
    else if cp[0].name == corpusID then Some(cp[0])
    else
      var r := GetCorpusProps(cp[1..], corpusID);
      assert r.Some? ==> exists i :: 0 <= i < |cp| && cp[i] == r.value && FirstNamed(cp, corpusID, i) by {
        if r.Some? {
          var i :| 0 <= i < |cp[1..]| && cp[1..][i] == r.value && FirstNamed(cp[1..], corpusID, i);
          assert cp[i + 1] == r.value && FirstNamed(cp, corpusID, i + 1);
        }
      }
      r
  }

  /** Position `i` holds the earliest corpus named `corpusID`. */
  ghost predicate FirstNamed(cp: CorporaConf, corpusID: string, i: int)
  {
    0 <= i < |cp| && cp[i].name == corpusID && forall j :: 0 <= j < i ==> cp[j].name != corpusID
  }

  /** Among corpora sharing a name, the lookup returns the earliest one. */
  lemma {:induction false} GetCorpusPropsFirstWins(cp: CorporaConf, i: nat)
    requires i < |cp|
    requires forall j :: 0 <= j < i ==> cp[j].name != cp[i].name
    ensures GetCorpusProps(cp, cp[i].name) == Some(cp[i])
  {
    if i > 0 {
      assert cp[0].name != cp[i].name;
      assert cp[1..][i - 1] == cp[i];
      GetCorpusPropsFirstWins(cp[1..], i - 1);
    }
  }

  /** The required syntax fields in the order they are checked: (JSON name, value). */
  function RequiredFields(conf: SyntaxProps): seq<(string, string)>
  {
    [ ("parentIdxAttr", conf.parentIdxAttr.name),
      ("lemmaAttr", conf.lemmaAttr.name),
      ("parLemmaAttr", conf.parLemmaAttr.name),
      ("posAttr", conf.posAttr.name),
      ("parPosAttr", conf.parPosAttr.name),
      ("funcAttr", conf.funcAttr.name),
      ("nounPosValue", conf.nounValue),
      ("verbPosValue", conf.verbValue),
      ("nounModifiedValue", conf.nounModifiedValue),
      ("nounSubjectValue", conf.nounSubjectValue),
      ("nounObjectValue", conf.nounObjectValue) ]
  }

  /** The error text for a missing field. */
  function MissingMessage(confContext: string, field: string): string
  {
    "missing `" + confContext + "." + field + "`"
  }

  /** The first field of `fields`, from position `from` on, whose value is empty, if any. */
  function FirstMissing(fields: seq<(string, string)>, from: nat): (r: Option<string>)
    ensures r.None? <==> forall i :: from <= i < |fields| ==> fields[i].1 != ""
    ensures r.Some? ==> exists i :: from <= i < |fields| && fields[i].0 == r.value && fields[i].1 == ""
                                    && forall j :: from <= j < i ==> fields[j].1 != ""
    decreases |fields| - from
  {
    if from >= |fields| then None
    else if fields[from].1 == "" then Some(fields[from].0)
    else FirstMissing(fields, from + 1)
  }

  /**
   * `SyntaxProps.ValidateAndDefaults`: the chain of emptiness checks, in the
   * source's order; None means the configuration is accepted. Nothing is defaulted.
   */
  function ValidateSyntax(conf: SyntaxProps, confContext: string): (err: Option<string>)
    ensures err.None? <==> forall i :: 0 <= i < |RequiredFields(conf)| ==> RequiredFields(conf)[i].1 != ""
    ensures err.Some? ==> exists i :: 0 <= i < |RequiredFields(conf)| && RequiredFields(conf)[i].1 == ""
                                      && err.value == MissingMessage(confContext, RequiredFields(conf)[i].0)
  {
    var f := RequiredFields(conf);
    assert f[0].1 == conf.parentIdxAttr.name && f[1].1 == conf.lemmaAttr.name;
    assert f[2].1 == conf.parLemmaAttr.name && f[3].1 == conf.posAttr.name;
    assert f[4].1 == conf.parPosAttr.name && f[5].1 == conf.funcAttr.name;
    assert f[6].1 == conf.nounValue && f[7].1 == conf.verbValue;
    assert f[8].1 == conf.nounModifiedValue && f[9].1 == conf.nounSubjectValue;
    assert f[10].1 == conf.nounObjectValue;
    if conf.parentIdxAttr.name == "" then Some(MissingMessage(confContext, "parentIdxAttr"))
    else if conf.lemmaAttr.name == "" then Some(MissingMessage(confContext, "lemmaAttr"))
    else if conf.parLemmaAttr.name == "" then Some(MissingMessage(confContext, "parLemmaAttr"))
    else if conf.posAttr.name == "" then Some(MissingMessage(confContext, "posAttr"))
    else if conf.parPosAttr.name == "" then Some(MissingMessage(confContext, "parPosAttr"))
    else if conf.funcAttr.name == "" then Some(MissingMessage(confContext, "funcAttr"))
    else if conf.nounValue == "" then Some(MissingMessage(confContext, "nounPosValue"))
    else if conf.verbValue == "" then Some(MissingMessage(confContext, "verbPosValue"))
    else if conf.nounModifiedValue == "" then Some(MissingMessage(confContext, "nounModifiedValue"))
    else if conf.nounSubjectValue == "" then Some(MissingMessage(confContext, "nounSubjectValue"))
    else if conf.nounObjectValue == "" then Some(MissingMessage(confContext, "nounObjectValue"))
    else None
  }

  /**
   * The chain of checks reports exactly the first empty required field in
   * check order, and accepts the configuration iff all eleven are filled in.
   */
  lemma ValidateSyntaxReportsFirstMissing(conf: SyntaxProps, confContext: string)
    ensures ValidateSyntax(conf, confContext).None?
            <==> forall i :: 0 <= i < |RequiredFields(conf)| ==> RequiredFields(conf)[i].1 != ""
    ensures ValidateSyntax(conf, confContext)
            == match FirstMissing(RequiredFields(conf), 0)
               case None => None
               case Some(field) => Some(MissingMessage(confContext, field))
  {
    var f := RequiredFields(conf);
    assert |f| == 11;
    assert f[0].1 == conf.parentIdxAttr.name && f[1].1 == conf.lemmaAttr.name;
    assert f[2].1 == conf.parLemmaAttr.name && f[3].1 == conf.posAttr.name;
    assert f[4].1 == conf.parPosAttr.name && f[5].1 == conf.funcAttr.name;
    assert f[6].1 == conf.nounValue && f[7].1 == conf.verbValue;
    assert f[8].1 == conf.nounModifiedValue && f[9].1 == conf.nounSubjectValue;
    assert f[10].1 == conf.nounObjectValue;
  }

  /** `CorpusProps.ValidateAndDefaults`: validates the corpus's syntax section and nothing else. */
  function ValidateCorpus(conf: CorpusProps, confContext: string): (err: Option<string>)
    ensures err == match FirstMissing(RequiredFields(conf.syntax), 0)
                   case None => None
                   case Some(field) => Some(MissingMessage(confContext, field))
  {
    ValidateSyntaxReportsFirstMissing(conf.syntax, confContext);
    ValidateSyntax(conf.syntax, confContext)
  }
}
