/**
 * The choice of the code-analysis agent: the `AGENT_TYPE` setting names
 * Gemini or Cursor in any letter case, and anything else (or nothing)
 * selects Gemini. Each agent is then configured from the environment.
 */
module AgentFactory {
  import opened Wrappers
  import opened Text
  import opened AgentCommon
  import opened GeminiAgent
  import opened CursorAgent

  datatype AgentType = Gemini | Cursor

  /** `AgentType::from_str`: the lowercased name, "gemini" or "cursor". */
  function FromStr(s: string): Option<AgentType>
  {
    var l := Lower(s);
    if l == "gemini" then Some(Gemini) else if l == "cursor" then Some(Cursor) else None
  }

  /** `AgentType::name`. */
  function Name(t: AgentType): (n: string)
    ensures |n| > 6
  {
    match t
    case Gemini => "Gemini CLI"
    case Cursor => "Cursor Agent"
  }

  /** `s` spells `word` (a lowercase ASCII word) in some mix of cases. */
  predicate SpelledAnyCase(s: string, word: string)
  {
    |s| == |word| && forall i :: 0 <= i < |s| ==> s[i] == word[i] || s[i] as int == word[i] as int - 32
  }

  predicate LowerWord(word: string)
  {
    forall i :: 0 <= i < |word| ==> 'a' <= word[i] <= 'z'
  }

  /** Lowercasing gives a lowercase word exactly when the text spells it in
      some mix of cases. */
  lemma LowerIsWord(s: string, word: string)
    requires LowerWord(word)
    ensures Lower(s) == word <==> SpelledAnyCase(s, word)
  {
    if SpelledAnyCase(s, word) {
      assert forall i :: 0 <= i < |s| ==> Lower(s)[i] == word[i];
    }
    if Lower(s) == word {
      forall i | 0 <= i < |s| ensures s[i] == word[i] || s[i] as int == word[i] as int - 32 {
        assert LowerChar(s[i]) == word[i];
      }
    }
  }

  /** Lowercasing twice is lowercasing once. */
  lemma LowerIdempotent(s: string)
    ensures Lower(Lower(s)) == Lower(s)
  {
    assert forall i :: 0 <= i < |s| ==> Lower(Lower(s))[i] == Lower(s)[i];
  }

  /** The parse ignores letter case. */
  lemma FromStrIgnoresCase(s: string)
    ensures FromStr(s) == FromStr(Lower(s))
  {
    LowerIdempotent(s);
  }

  /** Gemini is chosen exactly for "gemini" and Cursor exactly for "cursor",
      each in any mix of cases; every other text is no agent type. */
  lemma FromStrSpelling(s: string)
    ensures FromStr(s) == Some(Gemini) <==> SpelledAnyCase(s, "gemini")
    ensures FromStr(s) == Some(Cursor) <==> SpelledAnyCase(s, "cursor")
    ensures FromStr(s).None? <==> !SpelledAnyCase(s, "gemini") && !SpelledAnyCase(s, "cursor")
  {
    LowerIsWord(s, "gemini");
    LowerIsWord(s, "cursor");
  }

  /** The first word of each name parses back to its type, so the names differ. */
  lemma NameReadsBack(t: AgentType)
    ensures FromStr(Name(t)[..6]) == Some(t)
  {
    FromStrSpelling(Name(t)[..6]);
    assert SpelledAnyCase(Name(t)[..6], if t == Gemini then "gemini" else "cursor");
  }

  /** The agent type `create_agent_from_env` selects. */
  function SelectedType(env: Env): (t: AgentType)
    ensures t == Cursor <==> "AGENT_TYPE" in env && SpelledAnyCase(env["AGENT_TYPE"], "cursor")
  {
    FromStrSpelling(if "AGENT_TYPE" in env then env["AGENT_TYPE"] else "");
    var chosen := if "AGENT_TYPE" in env then FromStr(env["AGENT_TYPE"]) else None;
    chosen.UnwrapOr(Gemini)
  }

  /** A configured agent: its type and the settings it read. */
  datatype Agent = Agent(kind: AgentType, config: AgentConfig)

  /** `create_agent`: each type reads its own variables. */
  function CreateAgent(t: AgentType, env: Env): (a: Agent)
    ensures a.kind == t
    ensures t == Gemini ==> a.config == GeminiConfig(env)
    ensures t == Cursor ==> a.config == CursorConfig(env)
  {
    Agent(t, if t == Gemini then GeminiConfig(env) else CursorConfig(env))
  }

  /** `create_agent_from_env`. */
  function CreateAgentFromEnv(env: Env): (a: Agent)
    ensures a.kind == SelectedType(env)
  {
    CreateAgent(SelectedType(env), env)
  }

  /** An unset or unrecognised `AGENT_TYPE` gives the Gemini agent with the
      Gemini settings. */
  lemma UnsetOrInvalidSelectsGemini(env: Env)
    requires "AGENT_TYPE" !in env || FromStr(env["AGENT_TYPE"]).None?
    ensures CreateAgentFromEnv(env) == Agent(Gemini, GeminiConfig(env))
  {
    if "AGENT_TYPE" in env {
      FromStrSpelling(env["AGENT_TYPE"]);
    }
  }
}
