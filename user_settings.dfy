/** Per-chat user settings: one JSON object per chat, stored under the key
    `str(chat_id)`, with the model, MCP switch and system prompt settings and
    their defaults. */
module UserSettings {
  import opened Json

  const DefaultModel := "glm-4.7"
  const ModelKey := "model"
  const McpKey := "mcp_enabled"
  const PromptKey := "system_prompt"

  // ------------------------------------------------------- str(chat_id)

  function DigitChar(d: nat): (c: char)
    requires d < 10
    ensures '0' <= c <= '9'
  {
    ('0' as int + d) as char
  }

  function NatToString(n: nat): (s: string)
    ensures |s| >= 1 && (n >= 10 ==> |s| >= 2)
    ensures forall i :: 0 <= i < |s| ==> '0' <= s[i] <= '9'
    decreases n
  {
    if n < 10 then [DigitChar(n)] else NatToString(n / 10) + [DigitChar(n % 10)]
  }

  /** Python's `str(chat_id)` for an integer. */
  function ChatKey(chatId: int): string {
    if chatId < 0 then "-" + NatToString(-chatId) else NatToString(chatId)
  }

  lemma {:induction false} NatToStringInjective(a: nat, b: nat)
    requires NatToString(a) == NatToString(b)
    ensures a == b
    decreases a
  {
    var s := NatToString(a);
    if a >= 10 && b >= 10 {
      assert s[..|s| - 1] == NatToString(a / 10) && s[..|s| - 1] == NatToString(b / 10);
      NatToStringInjective(a / 10, b / 10);
      assert DigitChar(a % 10) == s[|s| - 1] == DigitChar(b % 10);
    }
  }

  /** Only a negative chat id renders with a leading minus sign. */
  lemma KeySign(chatId: int)
    ensures |ChatKey(chatId)| >= 1 && (ChatKey(chatId)[0] == '-' <==> chatId < 0)
  {
  }

  /** Distinct chats never share a settings key. */
  lemma ChatKeyInjective(a: int, b: int)
    requires ChatKey(a) == ChatKey(b)
    ensures a == b
  {
    KeySign(a);
    KeySign(b);
    if a < 0 && b < 0 {
      assert ChatKey(a)[1..] == NatToString(-a) && ChatKey(b)[1..] == NatToString(-b);
      NatToStringInjective(-a, -b);
    } else if a >= 0 && b >= 0 {
      NatToStringInjective(a, b);
    }
  }

  // ----------------------------------------------------------- getters

  /** All stored settings objects, by chat key. */
  type Store = map<string, map<string, Json>>

  /** `get_user_settings`: a chat without a stored object reads as `{}`. */
  function SettingsOf(store: Store, chatId: int): map<string, Json> {
    if ChatKey(chatId) in store then store[ChatKey(chatId)] else map[]
  }

  /** `get_user_model`: the stored model, else "glm-4.7". */
  function GetUserModel(store: Store, chatId: int): (r: Json)
    ensures ModelKey in SettingsOf(store, chatId) ==> r == SettingsOf(store, chatId)[ModelKey]
    ensures ModelKey !in SettingsOf(store, chatId) ==> r == JStr(DefaultModel)
  {
    var s := SettingsOf(store, chatId);
    if ModelKey in s then s[ModelKey] else JStr(DefaultModel)
  }

  /** `should_use_mcp_for_user`: the stored flag, else enabled. */
  function ShouldUseMcp(store: Store, chatId: int): (r: Json)
    ensures McpKey in SettingsOf(store, chatId) ==> r == SettingsOf(store, chatId)[McpKey]
    ensures McpKey !in SettingsOf(store, chatId) ==> r == JBool(true)
  {
    var s := SettingsOf(store, chatId);
    if McpKey in s then s[McpKey] else JBool(true)
  }

  /** `get_user_system_prompt`: the stored prompt, else `None`. */
  function GetSystemPrompt(store: Store, chatId: int): (r: Json)
    ensures PromptKey in SettingsOf(store, chatId) ==> r == SettingsOf(store, chatId)[PromptKey]
    ensures PromptKey !in SettingsOf(store, chatId) ==> r == JNull
  {
    var s := SettingsOf(store, chatId);
    if PromptKey in s then s[PromptKey] else JNull
  }

  /** Read the chat's settings, assign one key, save the object back. */
  function WithSetting(store: Store, chatId: int, key: string, value: Json): (r: Store)
    ensures r.Keys == store.Keys + {ChatKey(chatId)}
    ensures SettingsOf(r, chatId) == SettingsOf(store, chatId)[key := value]
  {
    store[ChatKey(chatId) := SettingsOf(store, chatId)[key := value]]
  }

  // ----------------------------------------------------------- setters

  class SettingsStore {
    var blobs: Store

    constructor ()
      ensures blobs == map[]
    {
      blobs := map[];
    }

    method SetUserModel(chatId: int, model: string)
      modifies this
      ensures blobs == WithSetting(old(blobs), chatId, ModelKey, JStr(model))
    {
      var settings := SettingsOf(blobs, chatId);
      settings := settings[ModelKey := JStr(model)];
      blobs := blobs[ChatKey(chatId) := settings];
    }

    method SetMcpForUser(chatId: int, enabled: bool)
      modifies this
      ensures blobs == WithSetting(old(blobs), chatId, McpKey, JBool(enabled))
    {
      var settings := SettingsOf(blobs, chatId);
      settings := settings[McpKey := JBool(enabled)];
      blobs := blobs[ChatKey(chatId) := settings];
    }

    method SetUserSystemPrompt(chatId: int, prompt: string)
      modifies this
      ensures blobs == WithSetting(old(blobs), chatId, PromptKey, JStr(prompt))
    {
      var settings := SettingsOf(blobs, chatId);
      settings := settings[PromptKey := JStr(prompt)];
      blobs := blobs[ChatKey(chatId) := settings];
    }

    /** `reset_user_system_prompt`: deletes the prompt and saves only when
        one was set; reports whether it was. */
    method ResetUserSystemPrompt(chatId: int) returns (removed: bool)
      modifies this
      ensures removed <==> PromptKey in SettingsOf(old(blobs), chatId)
      ensures removed ==> blobs == old(blobs)[ChatKey(chatId) := SettingsOf(old(blobs), chatId) - {PromptKey}]
      ensures !removed ==> blobs == old(blobs)
    {
      var settings := SettingsOf(blobs, chatId);
      if PromptKey in settings {
        settings := settings - {PromptKey};
        blobs := blobs[ChatKey(chatId) := settings];
        return true;
      }
      return false;
    }
  }

  // ------------------------------------------------------------ lemmas

  /** Each getter reads back what its setter stored. */
  lemma GetAfterSet(store: Store, chatId: int, model: string, enabled: bool, prompt: string)
    ensures GetUserModel(WithSetting(store, chatId, ModelKey, JStr(model)), chatId) == JStr(model)
    ensures ShouldUseMcp(WithSetting(store, chatId, McpKey, JBool(enabled)), chatId) == JBool(enabled)
    ensures GetSystemPrompt(WithSetting(store, chatId, PromptKey, JStr(prompt)), chatId) == JStr(prompt)
  {
  }

  /** A setter keeps every other key of the chat's settings and every other
      chat's settings as they were. */
  lemma SetPreservesOthers(store: Store, chatId: int, key: string, value: Json, otherKey: string, otherChat: int)
    requires otherKey != key && otherChat != chatId
    ensures var r := WithSetting(store, chatId, key, value);
      (otherKey in SettingsOf(r, chatId) <==> otherKey in SettingsOf(store, chatId))
      && (otherKey in SettingsOf(store, chatId) ==> SettingsOf(r, chatId)[otherKey] == SettingsOf(store, chatId)[otherKey])
      && SettingsOf(r, otherChat) == SettingsOf(store, otherChat)
  {
    if ChatKey(otherChat) == ChatKey(chatId) {
      ChatKeyInjective(otherChat, chatId);
    }
  }

  /** After a reset the prompt reads as `None` again, and a second reset
      reports that there was nothing to remove. */
  lemma ResetRestoresDefault(store: Store, chatId: int)
    requires PromptKey in SettingsOf(store, chatId)
    ensures var r := store[ChatKey(chatId) := SettingsOf(store, chatId) - {PromptKey}];
      GetSystemPrompt(r, chatId) == JNull && PromptKey !in SettingsOf(r, chatId)
  {
  }
}
