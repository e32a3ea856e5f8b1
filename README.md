# A verified model of the LLaVA reward-model adapter and scoring pipeline

This project models the deterministic logic in `finetune/run_reward_model.py`. That file turns a pretrained LLaVA vision-language causal model into a scalar reward model, then scores one (image, prompt) pair. The logic it models:

- **Weight transfer** (`convert_to_reward_model`). The pretrained parameter table is filtered. It keeps the names the reward model also defines that do not start with `lm_head`. The result is merged into a copy of the reward model's own table and loaded back non-strictly. If the pretrained body has a `vision_tower` attribute, the reward model's body is pointed at that same object.
- **Image-source classification** (`load_image`). A source is fetched over the network when it starts with `http://` or `https://`. Every other source is opened as a local file.
- **Conversation-template selection** (`evaluate_reward`). The checkpoint name is lower-cased. A name containing `llama-2` selects `llava_llama_2`. Otherwise a name containing `v1` selects `llava_v1`. Anything else selects `llava_v0`.
- **Prompt construction.** The user text is start marker + image token + end marker + `"\n"` + prompt. Two turns are appended to the copied template: the user turn with that text, then an empty assistant turn.
- **Reward extraction.** The reward is element 0 of a tuple output or the `reward` field of a structured output.

Modules:

- `Text` (`text.dfy`): Python's `str.startswith`, `in` on strings and `str.lower`. `Contains` is proved equal to an independent "occurs at some index" definition.
- `WeightTransfer` (`weight_transfer.dfy`): the models and state dictionaries are classes whose fields are updated in place. Parameter tables are `map<string, V>` with an opaque value type `V`. The pure function `ConvertedParams` specifies the table the conversion produces. `ConvertToRewardModel` is proved against it.
- `RewardPipeline` (`reward_pipeline.dfy`): image-source classification, template selection, prompt prefixing and its inverse, the conversation class, and output packaging and extraction.

## Model

| member | source | states |
|---|---|---|
| Text.StartsWith | finetune/run_reward_model.py:40 | `s.startswith(prefix)` (also at line 58) holds exactly when `s` is `prefix` followed by some string |
| WeightTransfer.IsLmHead | finetune/run_reward_model.py:58 | `k.startswith('lm_head')` holds exactly when the name is `lm_head` followed by some string |
| Text.Contains | finetune/run_reward_model.py:101-103 | `sub in s` holds exactly when `sub` occurs in `s` at some index; proved against that reference definition |
| Text.Lower | finetune/run_reward_model.py:101 | `name.lower()` keeps the length and lower-cases each character; no ASCII upper-case letter remains |
| WeightTransfer.StateDict.Update | finetune/run_reward_model.py:61 | `dict.update`: the keys become the union; every updating entry wins; every other entry keeps its value |
| WeightTransfer.PretrainedModel.StateDict | finetune/run_reward_model.py:53 | `state_dict()` returns a fresh dictionary holding the pretrained model's current parameters |
| WeightTransfer.RewardModel.StateDict | finetune/run_reward_model.py:54 | `state_dict()` returns a fresh dictionary holding the reward model's current parameters |
| WeightTransfer.RewardModel.constructor | finetune/run_reward_model.py:50 | the new reward model's table is its freshly built table, which has no `lm_head` entries because the causal model's initialiser that creates them is skipped; its body is a new object carrying the built `vision_tower` attribute |
| WeightTransfer.WithoutLmHead | llava/model/language_model/llava_reward.py:46-51 | the reward model ends up without a generation head: exactly the `lm_head` names are absent and every other value is kept |
| WeightTransfer.LoadNonStrict | finetune/run_reward_model.py:62 | a non-strict load keeps the key set; names also in the table take the table's value; the others keep theirs |
| WeightTransfer.RewardModel.LoadStateDict | finetune/run_reward_model.py:62 | `load_state_dict(..., strict=False)` on the object: same key set, loaded names take the table's values, the rest are unchanged |
| WeightTransfer.FilterPretrained | finetune/run_reward_model.py:56-58 | the filtered table holds exactly the pretrained names the reward model defines that do not start with `lm_head`, each with its pretrained value |
| WeightTransfer.ConvertedParams | finetune/run_reward_model.py:53-62 | the converted table has exactly the reward model's key set; `lm_head` names keep their own value; shared names get the pretrained value; names only the reward model has are unchanged |
| WeightTransfer.ConvertToRewardModel | finetune/run_reward_model.py:47-68 | the returned model is fresh; its table is `ConvertedParams` of its built table and the pretrained table; its vision tower is the very same reference as the source's when the source has the attribute, otherwise the one it was built with |
| WeightTransfer.ConvertedHasNoLmHead | finetune/run_reward_model.py:57-62 | no name starting with `lm_head` is in the converted table |
| WeightTransfer.LmHeadTestRedundant | finetune/run_reward_model.py:57-58 | because the reward model has no `lm_head` names, the name-membership test alone already excludes the generation head |
| WeightTransfer.SkippedNames | finetune/run_reward_model.py:56-58 | the pretrained names dropped are exactly those the reward model lacks plus the `lm_head` names |
| RewardPipeline.ClassifyImageSource | finetune/run_reward_model.py:39-45 | a source is remote if and only if it is `http://` or `https://` followed by some string; the string is passed on unchanged either way |
| RewardPipeline.UpperCaseSchemeIsLocal | finetune/run_reward_model.py:40 | the scheme test is case-sensitive: `HTTP://…` and `HTTPS://…` are opened as local paths |
| RewardPipeline.SelectConvMode | finetune/run_reward_model.py:101-106 | `llava_llama_2` exactly when the lower-cased name contains `llama-2` (even if it also contains `v1`); `llava_v1` exactly when it contains `v1` but not `llama-2`; `llava_v0` exactly when it contains neither |
| RewardPipeline.SelectConvModeIgnoresCase | finetune/run_reward_model.py:101-103 | upper-casing the checkpoint name does not change the selected template |
| RewardPipeline.ImageTokenSpan | finetune/run_reward_model.py:111 | the placeholder is the start marker, then the image token, then the end marker, with nothing else |
| RewardPipeline.PrefixImageTokens | finetune/run_reward_model.py:112 | the user text begins with the placeholder and a line break and ends with the original prompt |
| RewardPipeline.StripImageTokens | finetune/run_reward_model.py:112 | the inverse of the prefixing: it succeeds exactly on texts that begin with the placeholder line |
| RewardPipeline.StripPrefixed | finetune/run_reward_model.py:111-112 | stripping the placeholder from a prefixed prompt gives back the prompt |
| RewardPipeline.PrefixStripped | finetune/run_reward_model.py:111-112 | every text the strip accepts is the prefixing of the prompt it returns |
| RewardPipeline.Conversation.Copy | finetune/run_reward_model.py:108 | the copied conversation has the template's roles and turns |
| RewardPipeline.Conversation.AppendMessage | finetune/run_reward_model.py:114-115 | appending adds exactly one (role, content) turn at the end |
| RewardPipeline.PrepareConversation | finetune/run_reward_model.py:100-115 | the template is the one `SelectConvMode` picks, looked up in the registry by its name (`llava_llama_2`, `llava_v1` or `llava_v0`); the fresh conversation is the template's turns followed by (user role, prefixed prompt) and then (assistant role, no content) |
| RewardPipeline.PackageOutput | llava/model/language_model/llava_reward.py:135-143 | the output is a tuple exactly when `return_dict` is explicitly false; a tuple is the reward followed by the body's outputs after their first; a structured output carries the reward, and hidden states or attentions only when requested, then exactly the body's |
| RewardPipeline.ExtractReward | finetune/run_reward_model.py:130-134 | a non-empty tuple yields its element 0; a structured output yields its `reward` field; only an empty tuple yields no reward |
| RewardPipeline.ExtractPackagedReward | finetune/run_reward_model.py:131-134 | whichever shape the forward pass chose, the reward read back is the one it packaged |

## Left out

- Image fetching and decoding (`requests.get`, `Image.open`, `.convert('RGB')`): network and file I/O. Only the choice between the two routes is modelled.
- The forward pass of the reward model: the transformer body, multimodal fusion, masked mean pooling and the reward head. This is floating-point tensor arithmetic inside an external framework. Only how its result is packaged is modelled.
- Checkpoint loading, `get_model_name_from_path`, `process_images`, the tokenizer, and prompt rendering by `get_prompt()`: external collaborators. The checkpoint name, marker strings and template registry are parameters.
- Reward-model construction from the configuration (`LlavaLlamaForReward(config)`, `build_vision_tower`): external. Its fresh table and body `vision_tower` attribute are inputs to `ConvertToRewardModel`.
- Device placement, `eval()`, `no_grad()`, `.item()`, `disable_torch_init`, the command-line entry point and its `print`: framework and CLI plumbing.
- Registration of the config and model classes with the framework: a global side effect.
- Text.Lower: lower-cases ASCII letters only; Python's `str.lower` also maps non-ASCII letters, which this model leaves unchanged.
- RewardPipeline.Conversation.Copy: roles are a pair, so the index errors `roles[0]`/`roles[1]` would raise on a template with fewer than two roles are not modelled; every template the pipeline can select has two.
- WeightTransfer.ConvertToRewardModel: the parameter table and the vision tower are separate fields. In the source the tower is a submodule of the body, so its parameters belong to the table. After the tower is replaced, the `model.vision_tower.*` entries share the source tower's tensors rather than holding the copies loaded just before. If the source's attribute holds `None`, those entries leave the table. The stated `params` is the table as loaded, before the tower is replaced.
- `load_state_dict` with `strict=True` is not modelled; the source calls it only with `strict=False`. Parameter values are opaque, so their shapes are not modelled either, nor the error `load_state_dict` raises on a shape mismatch for a shared name even when not strict; the reward model is built from the pretrained model's own configuration, so shared names have matching shapes.
