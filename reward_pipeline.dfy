/** The deterministic steps of `evaluate_reward` and `load_image` in
    finetune/run_reward_model.py: where an image comes from, which conversation
    template a checkpoint name selects, how the user turn is built, and where the
    reward is read from the model's output. */
module RewardPipeline {
  import opened Text

  datatype Option<T> = None | Some(value: T)

  // ---------------------------------------------------------------- images

  /** Where `load_image` reads an image from: fetched over the network or opened as a file. */
  datatype ImageSource = Remote(url: string) | LocalPath(path: string)

  /** The scheme test of `load_image`: a source is fetched exactly when it begins with
      `http://` or `https://`; every other string is opened as a local path. */
  function ClassifyImageSource(src: string): (r: ImageSource)
    ensures r.Remote? <==> (exists rest :: src == "http://" + rest) || (exists rest :: src == "https://" + rest)
    ensures r.Remote? ==> r.url == src
    ensures r.LocalPath? ==> r.path == src
  {
    if StartsWith(src, "http://") || StartsWith(src, "https://") then
      assert StartsWith(src, "http://") ==> src == "http://" + src[7..];
      assert StartsWith(src, "https://") ==> src == "https://" + src[8..];
      Remote(src)
    else
      assert forall rest :: src != "http://" + rest by {
        forall rest ensures src != "http://" + rest {
          StartsWithConcat("http://", rest);
        }
      }
      assert forall rest :: src != "https://" + rest by {
        forall rest ensures src != "https://" + rest {
          StartsWithConcat("https://", rest);
        }
      }
      LocalPath(src)
  }

  /** The scheme test is case-sensitive: an upper-case scheme is read as a file name. */
  lemma UpperCaseSchemeIsLocal(rest: string)
    ensures ClassifyImageSource("HTTP://" + rest).LocalPath?
    ensures ClassifyImageSource("HTTPS://" + rest).LocalPath?
  {
    assert ("HTTP://" + rest)[0] == 'H';
    assert ("HTTPS://" + rest)[0] == 'H';
  }

  // ------------------------------------------------------ template selection

  /** The conversation templates `evaluate_reward` can pick. */
  datatype ConvMode = LlavaLlama2 | LlavaV1 | LlavaV0
  {
    /** The template's key in the template registry. */
    function Key(): string
    {
      match this
      case LlavaLlama2 => "llava_llama_2"
      case LlavaV1 => "llava_v1"
      case LlavaV0 => "llava_v0"
    }
  }

  /** Template selection from the checkpoint name: lower-case it, then `llama-2` wins over
      `v1`, which wins over the default. */
  function SelectConvMode(modelName: string): (mode: ConvMode)
    ensures mode == LlavaLlama2 <==> HasSubstring(Lower(modelName), "llama-2")
    ensures mode == LlavaV1 <==>
      !HasSubstring(Lower(modelName), "llama-2") && HasSubstring(Lower(modelName), "v1")
    ensures mode == LlavaV0 <==>
      !HasSubstring(Lower(modelName), "llama-2") && !HasSubstring(Lower(modelName), "v1")
  {
    if Contains(Lower(modelName), "llama-2") then LlavaLlama2
    else if Contains(Lower(modelName), "v1") then LlavaV1
    else LlavaV0
  }

  /** The selection ignores case: the upper-cased name selects the same template. */
  lemma SelectConvModeIgnoresCase(modelName: string)
    ensures SelectConvMode(Upper(modelName)) == SelectConvMode(modelName)
  {
    LowerOfUpper(modelName);
  }

  // ------------------------------------------------------------- the prompt

  /** The image placeholder: start marker, image token, end marker. The three marker
      strings are constants of the LLaVA package and are parameters here. */
  function ImageTokenSpan(startToken: string, imageToken: string, endToken: string): (span: string)
    ensures |span| == |startToken| + |imageToken| + |endToken|
    ensures StartsWith(span, startToken)
    ensures span[|startToken|..|startToken| + |imageToken|] == imageToken
    ensures span[|span| - |endToken|..] == endToken
  {
    startToken + imageToken + endToken
  }

  /** The user text: the placeholder, a line break, then the original prompt. */
  function PrefixImageTokens(span: string, prompt: string): (msg: string)
    ensures |msg| == |span| + 1 + |prompt|
    ensures StartsWith(msg, span + "\n")
    ensures msg[|msg| - |prompt|..] == prompt
  {
    span + "\n" + prompt
  }

  /** Recovers the original prompt from a user text, if it begins with the placeholder line. */
  function StripImageTokens(span: string, msg: string): (r: Option<string>)
    ensures r.Some? <==> StartsWith(msg, span + "\n")
    ensures r.Some? ==> |r.value| == |msg| - |span| - 1
  {
    if StartsWith(msg, span + "\n") then Some(msg[|span| + 1..]) else None
  }

  /** Prefixing loses nothing: stripping the placeholder gives back the prompt. */
  lemma StripPrefixed(span: string, prompt: string)
    ensures StripImageTokens(span, PrefixImageTokens(span, prompt)) == Some(prompt)
  {
    var msg := PrefixImageTokens(span, prompt);
    assert msg[|span| + 1..] == prompt;
  }

  /** Every user text that begins with the placeholder line is the prefixing of some prompt. */
  lemma PrefixStripped(span: string, msg: string)
    requires StripImageTokens(span, msg).Some?
    ensures PrefixImageTokens(span, StripImageTokens(span, msg).value) == msg
  {
    assert msg == msg[..|span| + 1] + msg[|span| + 1..];
  }

  // -------------------------------------------------------- the conversation

  /** One turn: a role and its content (`None` for the turn the model is to fill). */
  datatype Message = Message(role: string, content: Option<string>)

  /** A registered template: its two roles and the turns it starts with. */
  datatype ConvTemplate = ConvTemplate(roles: (string, string), messages: seq<Message>)

  /** A conversation being built; messages are appended in place. */
  class Conversation {
    const roles: (string, string)
    var messages: seq<Message>

    /** `conv_templates[mode].copy()`: a fresh conversation with the template's turns. */
    constructor Copy(template: ConvTemplate)
      ensures roles == template.roles && messages == template.messages
    {
      roles := template.roles;
      messages := template.messages;
    }

    /** `append_message(role, content)`. */
    method AppendMessage(role: string, content: Option<string>)
      modifies this
      ensures messages == old(messages) + [Message(role, content)]
    {
      messages := messages + [Message(role, content)];
    }
  }

  /** Template selection, copy, and the two appended turns of `evaluate_reward`: the user
      turn carries the prefixed prompt and the assistant turn is left empty. The template
      registry, keyed by template name, is a parameter. */
  method PrepareConversation(modelName: string, templates: string -> ConvTemplate,
                             startToken: string, imageToken: string, endToken: string,
                             prompt: string)
    returns (mode: ConvMode, conv: Conversation)
    ensures mode == SelectConvMode(modelName)
    ensures fresh(conv) && conv.roles == templates(mode.Key()).roles
    ensures conv.messages == templates(mode.Key()).messages +
      [Message(conv.roles.0, Some(PrefixImageTokens(ImageTokenSpan(startToken, imageToken, endToken), prompt))),
       Message(conv.roles.1, None)]
  {
    mode := SelectConvMode(modelName);
    conv := new Conversation.Copy(templates(mode.Key()));
    var span := ImageTokenSpan(startToken, imageToken, endToken);
    var userText := PrefixImageTokens(span, prompt);
    conv.AppendMessage(conv.roles.0, Some(userText));
    conv.AppendMessage(conv.roles.1, None);
  }

  // ------------------------------------------------------------ the reward

  /** What the reward model's forward pass returns: a structured record or a plain tuple.
      Tensors are opaque values of type `T`. */
  datatype RewardOutput<T> =
    | Structured(reward: T, hiddenStates: Option<T>, attentions: Option<T>)
    | Tuple(items: seq<T>)

  /** How the forward pass packages its reward (`return_dict` defaults to true): as a
      record, keeping the diagnostics only when asked for, or as a tuple whose first
      element is the reward followed by the body's outputs after its first. */
  function PackageOutput<T>(reward: T, bodyOutputs: seq<T>, hiddenStates: Option<T>,
                            attentions: Option<T>, outputHiddenStates: bool,
                            outputAttentions: bool, returnDict: Option<bool>): (o: RewardOutput<T>)
    ensures o.Tuple? <==> returnDict == Some(false)
    ensures o.Structured? ==> o.reward == reward
    ensures o.Tuple? ==> |o.items| == if |bodyOutputs| == 0 then 1 else |bodyOutputs|
    ensures o.Tuple? ==> o.items[0] == reward
    ensures o.Tuple? && |bodyOutputs| > 0 ==> o.items[1..] == bodyOutputs[1..]
    ensures o.Structured? ==>
      (o.hiddenStates.Some? ==> outputHiddenStates) && (outputHiddenStates ==> o.hiddenStates == hiddenStates)
    ensures o.Structured? ==>
      (o.attentions.Some? ==> outputAttentions) && (outputAttentions ==> o.attentions == attentions)
  {
    if returnDict == Some(false) then
      Tuple([reward] + (if |bodyOutputs| == 0 then [] else bodyOutputs[1..]))
    else
      Structured(reward,
                 if outputHiddenStates then hiddenStates else None,
                 if outputAttentions then attentions else None)
  }

  /** Reading the reward: element 0 of a tuple (no reward in an empty tuple, where Python
      raises an index error), or the `reward` field of a record. */
  function ExtractReward<T>(o: RewardOutput<T>): (r: Option<T>)
    ensures r.None? <==> o.Tuple? && |o.items| == 0
    ensures o.Structured? ==> r == Some(o.reward)
    ensures o.Tuple? && |o.items| > 0 ==> r == Some(o.items[0])
  {
    match o
    case Tuple(items) => if |items| == 0 then None else Some(items[0])
    case Structured(reward, _, _) => Some(reward)
  }

  /** Whatever shape the forward pass chose, the reward read back is the one it packaged. */
  lemma ExtractPackagedReward<T>(reward: T, bodyOutputs: seq<T>, hiddenStates: Option<T>,
                                 attentions: Option<T>, outputHiddenStates: bool,
                                 outputAttentions: bool, returnDict: Option<bool>)
    ensures ExtractReward(PackageOutput(reward, bodyOutputs, hiddenStates, attentions,
                                        outputHiddenStates, outputAttentions, returnDict))
         == Some(reward)
  {
  }
}
