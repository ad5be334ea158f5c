/** The admin dashboard's form state: the strategy form and the blog form,
    the four staging inputs whose text the "+" buttons move into the form
    lists, and the `loading` flag of the submit handlers. The call into the
    store is represented by its outcome, a parameter; the alert boxes are not
    modelled. */
module AdminPage {
  import opened Wrappers
  import opened Text
  import opened Seqs

  datatype StrategyForm = StrategyForm(
    name: string,
    description: string,
    apy: string,
    risk: string,
    tvl: string,
    category: string,
    timeToSetup: string,
    minInvestment: string,
    maxInvestment: string,
    tags: seq<string>,
    protocols: seq<string>,
    chains: seq<string>,
    steps: seq<string>,
    featured: bool)

  datatype BlogForm = BlogForm(
    title: string,
    slug: string,
    excerpt: string,
    content: string,
    author: string,
    category: string,
    tags: seq<string>,
    readTime: string,
    featured: bool)

  const InitialStrategyForm := StrategyForm("", "", "", "Low", "", "Liquid Staking", "", "", "", [], [], [], [], false)
  const InitialBlogForm := BlogForm("", "", "", "", "", "Strategy", [], "", false)

  /** A number field of a payload: the text handed to `parseFloat` or
      `parseInt` (number parsing is not modelled), or `NaN` for a field the
      form does not have. */
  datatype Number = FloatOf(text: string) | IntOf(text: string) | NaN

  /** What the strategy submit hands to the store: the form, with its number
      fields replaced by their parses, a `readTime` (the strategy form has
      none, so it is `NaN`) and zero performance figures. */
  datatype StrategyPayload = StrategyPayload(
    form: StrategyForm,
    apy: Number,
    tvl: Number,
    minInvestment: Number,
    maxInvestment: Number,
    readTime: Number,
    performance7d: int,
    performance30d: int,
    performance90d: int)

  /** What the blog submit hands to the store: the form, its `readTime`
      parsed, and two readings of the clock as ISO text. */
  datatype BlogPayload = BlogPayload(form: BlogForm, readTime: Number, publishedAt: string, updatedAt: string)

  function StrategyPayloadOf(form: StrategyForm): (r: StrategyPayload)
    ensures r.form == form && r.readTime == NaN
    ensures r.apy == FloatOf(form.apy) && r.tvl == IntOf(form.tvl)
    ensures r.minInvestment == FloatOf(form.minInvestment) && r.maxInvestment == FloatOf(form.maxInvestment)
    ensures r.performance7d == 0 && r.performance30d == 0 && r.performance90d == 0
  {
    StrategyPayload(form, FloatOf(form.apy), IntOf(form.tvl), FloatOf(form.minInvestment),
                    FloatOf(form.maxInvestment), NaN, 0, 0, 0)
  }

  /** Which staging input a keystroke goes to. */
  datatype Input = TagInput | ProtocolInput | ChainInput | StepInput

  /** The list after an "add" button: the trimmed staging text appended
      when it is not blank. */
  function Appended(list: seq<string>, staging: string): (r: seq<string>)
    ensures Trim(staging) != "" ==> r == list + [Trim(staging)]
    ensures Trim(staging) == "" ==> r == list
  {
    if Trim(staging) != "" then list + [Trim(staging)] else list
  }

  /** An add grows its list by exactly one non-blank entry with no
      surrounding white space, or leaves it as it was. */
  lemma AppendedShape(list: seq<string>, staging: string)
    ensures var r := Appended(list, staging);
      r == list || (|r| == |list| + 1 && r[..|list|] == list && r[|list|] != ""
                    && !IsSpace(r[|list|][0]) && !IsSpace(r[|list|][|r[|list|]| - 1]))
  {
  }

  /** Removing the entry an add just put in a list that did not hold it
      gives the list back. */
  lemma {:induction false} RemoveUndoesAdd(list: seq<string>, staging: string)
    requires Trim(staging) != "" && Trim(staging) !in list
    ensures Without(Appended(list, staging), Trim(staging)) == list
  {
    var t := Trim(staging);
    FilterAppend(list, [t], NotEqualTo(t));
    WithoutAbsent(list, t);
    FilterNone([t], NotEqualTo(t));
  }

  class Admin {
    var strategyForm: StrategyForm
    var blogForm: BlogForm
    var newTag: string
    var newProtocol: string
    var newChain: string
    var newStep: string
    var loading: bool

    constructor ()
      ensures strategyForm == InitialStrategyForm && blogForm == InitialBlogForm
      ensures newTag == "" && newProtocol == "" && newChain == "" && newStep == "" && !loading
    {
      strategyForm, blogForm := InitialStrategyForm, InitialBlogForm;
      newTag, newProtocol, newChain, newStep := "", "", "", "";
      loading := false;
    }

    /** Typing into a staging input. */
    method Stage(input: Input, text: string)
      modifies this
      ensures input == TagInput ==> newTag == text
      ensures input == ProtocolInput ==> newProtocol == text
      ensures input == ChainInput ==> newChain == text
      ensures input == StepInput ==> newStep == text
      ensures input != TagInput ==> newTag == old(newTag)
      ensures input != ProtocolInput ==> newProtocol == old(newProtocol)
      ensures input != ChainInput ==> newChain == old(newChain)
      ensures input != StepInput ==> newStep == old(newStep)
      ensures strategyForm == old(strategyForm) && blogForm == old(blogForm) && loading == old(loading)
    {
      match input
      case TagInput => newTag := text;
      case ProtocolInput => newProtocol := text;
      case ChainInput => newChain := text;
      case StepInput => newStep := text;
    }

    /** `addTag(kind)`: the one tag input feeds both forms; "strategy" picks
        the strategy form and anything else the blog form. A blank input
        changes nothing. */
    method AddTag(kind: string)
      modifies this
      ensures Trim(old(newTag)) == "" ==> newTag == old(newTag)
      ensures Trim(old(newTag)) != "" ==> newTag == ""
      ensures kind == "strategy" ==>
        strategyForm == old(strategyForm).(tags := Appended(old(strategyForm.tags), old(newTag)))
        && blogForm == old(blogForm)
      ensures kind != "strategy" ==>
        blogForm == old(blogForm).(tags := Appended(old(blogForm.tags), old(newTag)))
        && strategyForm == old(strategyForm)
      ensures newProtocol == old(newProtocol) && newChain == old(newChain) && newStep == old(newStep)
      ensures loading == old(loading)
    {
      var t := Trim(newTag);
      if t != "" {
        if kind == "strategy" {
          strategyForm := strategyForm.(tags := strategyForm.tags + [t]);
        } else {
          blogForm := blogForm.(tags := blogForm.tags + [t]);
        }
        newTag := "";
      }
    }

    /** `removeTag(tag, kind)`: every copy of `tag` leaves the chosen form's
        tags. */
    method RemoveTag(tag: string, kind: string)
      modifies this
      ensures kind == "strategy" ==>
        strategyForm == old(strategyForm).(tags := Without(old(strategyForm.tags), tag))
        && blogForm == old(blogForm)
      ensures kind != "strategy" ==>
        blogForm == old(blogForm).(tags := Without(old(blogForm.tags), tag))
        && strategyForm == old(strategyForm)
      ensures newTag == old(newTag) && newProtocol == old(newProtocol)
      ensures newChain == old(newChain) && newStep == old(newStep) && loading == old(loading)
    {
      if kind == "strategy" {
        strategyForm := strategyForm.(tags := Without(strategyForm.tags, tag));
      } else {
        blogForm := blogForm.(tags := Without(blogForm.tags, tag));
      }
    }

    method AddProtocol()
      modifies this
      ensures strategyForm == old(strategyForm).(protocols := Appended(old(strategyForm.protocols), old(newProtocol)))
      ensures newProtocol == if Trim(old(newProtocol)) != "" then "" else old(newProtocol)
      ensures blogForm == old(blogForm) && newTag == old(newTag) && newChain == old(newChain)
      ensures newStep == old(newStep) && loading == old(loading)
    {
      var t := Trim(newProtocol);
      if t != "" {
        strategyForm := strategyForm.(protocols := strategyForm.protocols + [t]);
        newProtocol := "";
      }
    }

    method RemoveProtocol(protocol: string)
      modifies this
      ensures strategyForm == old(strategyForm).(protocols := Without(old(strategyForm.protocols), protocol))
      ensures blogForm == old(blogForm) && newTag == old(newTag) && newProtocol == old(newProtocol)
      ensures newChain == old(newChain) && newStep == old(newStep) && loading == old(loading)
    {
      strategyForm := strategyForm.(protocols := Without(strategyForm.protocols, protocol));
    }

    method AddChain()
      modifies this
      ensures strategyForm == old(strategyForm).(chains := Appended(old(strategyForm.chains), old(newChain)))
      ensures newChain == if Trim(old(newChain)) != "" then "" else old(newChain)
      ensures blogForm == old(blogForm) && newTag == old(newTag) && newProtocol == old(newProtocol)
      ensures newStep == old(newStep) && loading == old(loading)
    {
      var t := Trim(newChain);
      if t != "" {
        strategyForm := strategyForm.(chains := strategyForm.chains + [t]);
        newChain := "";
      }
    }

    method RemoveChain(chain: string)
      modifies this
      ensures strategyForm == old(strategyForm).(chains := Without(old(strategyForm.chains), chain))
      ensures blogForm == old(blogForm) && newTag == old(newTag) && newProtocol == old(newProtocol)
      ensures newChain == old(newChain) && newStep == old(newStep) && loading == old(loading)
    {
      strategyForm := strategyForm.(chains := Without(strategyForm.chains, chain));
    }

    method AddStep()
      modifies this
      ensures strategyForm == old(strategyForm).(steps := Appended(old(strategyForm.steps), old(newStep)))
      ensures newStep == if Trim(old(newStep)) != "" then "" else old(newStep)
      ensures blogForm == old(blogForm) && newTag == old(newTag) && newProtocol == old(newProtocol)
      ensures newChain == old(newChain) && loading == old(loading)
    {
      var t := Trim(newStep);
      if t != "" {
        strategyForm := strategyForm.(steps := strategyForm.steps + [t]);
        newStep := "";
      }
    }

    method RemoveStep(step: string)
      modifies this
      ensures strategyForm == old(strategyForm).(steps := Without(old(strategyForm.steps), step))
      ensures blogForm == old(blogForm) && newTag == old(newTag) && newProtocol == old(newProtocol)
      ensures newChain == old(newChain) && newStep == old(newStep) && loading == old(loading)
    {
      strategyForm := strategyForm.(steps := Without(strategyForm.steps, step));
    }

    /** `handleStrategySubmit`: sends the payload; on success the strategy
        form goes back to its initial value, on failure it is kept. Either
        way `loading` ends false, and the blog form and staging inputs are
        untouched. */
    method SubmitStrategy(createSucceeded: bool) returns (sent: StrategyPayload)
      modifies this
      ensures sent == StrategyPayloadOf(old(strategyForm))
      ensures strategyForm == (if createSucceeded then InitialStrategyForm else old(strategyForm))
      ensures !loading
      ensures blogForm == old(blogForm) && newTag == old(newTag) && newProtocol == old(newProtocol)
      ensures newChain == old(newChain) && newStep == old(newStep)
    {
      loading := true;
      sent := StrategyPayloadOf(strategyForm);
      if createSucceeded {
        strategyForm := InitialStrategyForm;
      }
      loading := false;
    }

    /** `handleBlogSubmit`, with the two clock readings as parameters: on
        success the blog form goes back to its initial value; the staging
        inputs, including the shared tag input, are not reset. */
    method SubmitBlog(createSucceeded: bool, publishedNow: string, updatedNow: string) returns (sent: BlogPayload)
      modifies this
      ensures sent == BlogPayload(old(blogForm), IntOf(old(blogForm.readTime)), publishedNow, updatedNow)
      ensures blogForm == (if createSucceeded then InitialBlogForm else old(blogForm))
      ensures !loading
      ensures strategyForm == old(strategyForm) && newTag == old(newTag) && newProtocol == old(newProtocol)
      ensures newChain == old(newChain) && newStep == old(newStep)
    {
      loading := true;
      sent := BlogPayload(blogForm, IntOf(blogForm.readTime), publishedNow, updatedNow);
      if createSucceeded {
        blogForm := InitialBlogForm;
      }
      loading := false;
    }
  }
}
