/** Turning a pretrained LLaVA causal model into a reward model: the
    parameter-table filter and merge, the non-strict load, and the reuse of the
    vision tower (`convert_to_reward_model` in finetune/run_reward_model.py).
    Parameter values are opaque (`V`); only the names and the provenance of each
    value matter. */
module WeightTransfer {
  import opened Text

  /** Name prefix of the token-generation head's parameters. */
  const LmHeadPrefix := "lm_head"

  /** `name.startswith('lm_head')`: the name belongs to the generation head. */
  predicate IsLmHead(name: string): (b: bool)
    ensures b <==> exists rest :: name == "lm_head" + rest
  {
    StartsWith(name, LmHeadPrefix)
  }

  /** A Python attribute that an object may or may not have (`hasattr`). */
  datatype Attribute<T> = Absent | Present(value: T)

  /** The vision encoder; only its identity matters here. */
  class VisionTower {
  }

  /** `model.model`: the transformer body, whose `vision_tower` attribute may be missing
      and, when present, may be `None` (null). */
  class LlavaBody {
    var visionTower: Attribute<VisionTower?>

    constructor (tower: Attribute<VisionTower?>)
      ensures visionTower == tower
    {
      visionTower := tower;
    }
  }

  /** A dictionary of parameters as returned by `state_dict()`, updated in place. */
  class StateDict<V> {
    var entries: map<string, V>

    constructor (entries: map<string, V>)
      ensures this.entries == entries
    {
      this.entries := entries;
    }

    /** `dict.update(other)`: every entry of `other` is written, the rest is kept. */
    method Update(other: map<string, V>)
      modifies this
      ensures entries.Keys == old(entries).Keys + other.Keys
      ensures forall k :: k in other ==> entries[k] == other[k]
      ensures forall k :: k in old(entries) && k !in other ==> entries[k] == old(entries)[k]
    {
      entries := entries + other;
    }
  }

  /** The pretrained causal model (`LlavaLlamaForCausalLM`): its parameter table and body. */
  class PretrainedModel<V> {
    var params: map<string, V>
    const model: LlavaBody

    constructor (params: map<string, V>, model: LlavaBody)
      ensures this.params == params && this.model == model
    {
      this.params := params;
      this.model := model;
    }

    /** `state_dict()`: a fresh dictionary holding the current parameters. */
    method StateDict() returns (d: StateDict<V>)
      ensures fresh(d) && d.entries == params
    {
      d := new StateDict(params);
    }
  }

  /** The table without its generation-head entries (the reward model never has `lm_head`). */
  function WithoutLmHead<V>(m: map<string, V>): (r: map<string, V>)
    ensures r.Keys == m.Keys - set k | k in m && IsLmHead(k)
    ensures forall k :: k in r ==> r[k] == m[k]
  {
    map k | k in m && !IsLmHead(k) :: m[k]
  }

  /** `load_state_dict(table, strict=False)`: names the model has take the table's value,
      names it lacks are ignored, names the table lacks keep their value. */
  function LoadNonStrict<V>(current: map<string, V>, table: map<string, V>): (r: map<string, V>)
    ensures r.Keys == current.Keys
    ensures forall k :: k in current && k in table ==> r[k] == table[k]
    ensures forall k :: k in current && k !in table ==> r[k] == current[k]
  {
    map k | k in current :: if k in table then table[k] else current[k]
  }

  /** The comprehension that keeps the pretrained entries the reward model also defines,
      minus the generation head. */
  function FilterPretrained<V>(pretrained: map<string, V>, ownNames: set<string>): (r: map<string, V>)
    ensures r.Keys <= pretrained.Keys && r.Keys <= ownNames
    ensures forall k :: k in r ==> !IsLmHead(k) && r[k] == pretrained[k]
    ensures forall k :: k in pretrained && k in ownNames && !IsLmHead(k) ==> k in r
  {
    map k | k in pretrained && k in ownNames && !IsLmHead(k) :: pretrained[k]
  }

  /** The reward model's table after the conversion, given its own fresh table `own`
      and the pretrained table: filter, merge into a copy of `own`, load non-strictly. */
  function ConvertedParams<V>(own: map<string, V>, pretrained: map<string, V>): (r: map<string, V>)
    ensures r.Keys == own.Keys
    ensures forall k :: k in own && IsLmHead(k) ==> r[k] == own[k]
    ensures forall k :: k in own && k in pretrained && !IsLmHead(k) ==> r[k] == pretrained[k]
    ensures forall k :: k in own && k !in pretrained ==> r[k] == own[k]
  {
    LoadNonStrict(own, own + FilterPretrained(pretrained, own.Keys))
  }

  /** The reward model (`LlavaLlamaForReward`). */
  class RewardModel<V> {
    var params: map<string, V>
    const model: LlavaBody

    /** Construction from the configuration happens outside this model: `initial` is the
        freshly initialised table the constructor builds and `tower` the body's
        `vision_tower` attribute after it. The constructor skips the causal model's own
        initialiser, so no `lm_head` parameter is ever created; the table is stated
        without `lm_head` names, which is what the guarded deletion would leave. */
    constructor (initial: map<string, V>, tower: Attribute<VisionTower?>)
      ensures params == WithoutLmHead(initial)
      ensures fresh(model) && model.visionTower == tower
    {
      params := WithoutLmHead(initial);
      model := new LlavaBody(tower);
    }

    /** `state_dict()`: a fresh dictionary holding the current parameters. */
    method StateDict() returns (d: StateDict<V>)
      ensures fresh(d) && d.entries == params
    {
      d := new StateDict(params);
    }

    /** `load_state_dict(table, strict=False)`. */
    method LoadStateDict(table: map<string, V>)
      modifies this
      ensures params.Keys == old(params).Keys
      ensures forall k :: k in params && k in table ==> params[k] == table[k]
      ensures forall k :: k in params && k !in table ==> params[k] == old(params)[k]
    {
      params := LoadNonStrict(params, table);
    }
  }

  /** `convert_to_reward_model`: builds the reward model (its fresh table and body tower
      are `initial` and `builtTower`), copies every pretrained parameter it also defines
      except the generation head, and reuses the source's vision tower object. */
  method ConvertToRewardModel<V>(source: PretrainedModel<V>, initial: map<string, V>,
                                 builtTower: Attribute<VisionTower?>)
    returns (reward: RewardModel<V>)
    ensures fresh(reward) && fresh(reward.model)
    ensures reward.params == ConvertedParams(WithoutLmHead(initial), source.params)
    ensures source.model.visionTower.Present? ==> reward.model.visionTower == source.model.visionTower
    ensures source.model.visionTower.Absent? ==> reward.model.visionTower == builtTower
  {
    reward := new RewardModel(initial, builtTower);
    var pretrainedDict := source.StateDict();
    var modelDict := reward.StateDict();
    ghost var own := modelDict.entries;
    var filtered := FilterPretrained(pretrainedDict.entries, modelDict.entries.Keys);
    modelDict.Update(filtered);
    assert modelDict.entries == own + filtered;
    reward.LoadStateDict(modelDict.entries);
    assert reward.params == LoadNonStrict(own, own + filtered);
    if source.model.visionTower.Present? {
      reward.model.visionTower := source.model.visionTower;
    }
  }

  /** No generation-head parameter survives the conversion, whatever the two tables hold. */
  lemma ConvertedHasNoLmHead<V>(initial: map<string, V>, pretrained: map<string, V>)
    ensures forall k :: k in ConvertedParams(WithoutLmHead(initial), pretrained) ==> !IsLmHead(k)
  {
  }

  /** Since the reward model's own table has no generation-head names, the `lm_head`
      test in the filter never removes anything the name test keeps. */
  lemma LmHeadTestRedundant<V>(initial: map<string, V>, pretrained: map<string, V>)
    ensures FilterPretrained(pretrained, WithoutLmHead(initial).Keys)
         == map k | k in pretrained && k in WithoutLmHead(initial) :: pretrained[k]
  {
  }

  /** The parameters the transfer drops are exactly the pretrained names the reward model
      does not define plus the generation head. */
  lemma SkippedNames<V>(own: map<string, V>, pretrained: map<string, V>)
    ensures pretrained.Keys - FilterPretrained(pretrained, own.Keys).Keys
         == set k | k in pretrained && (k !in own || IsLmHead(k))
  {
  }
}
