# Enemy generation pipeline of a browser RPG

The game asks a small local service for a new enemy. The service
(`ai_generator.py`) builds a prompt from the player's level and environment
and posts it to a text-generation backend (an Ollama model). It then cuts the
JSON object out of the model's chatty reply with a greedy regex and parses
it. If anything in that chain raises, it answers with a canned enemy,
"Glitch Ghost".

This project models that pipeline in Dafny:

- `json_extract.dfy` (`JsonExtract`): `clean_json` over `seq<char>`. It uses
  first-index and last-index helpers, and a reference semantics for
  `re.search(r'\{.*\}', text, re.DOTALL)` (leftmost start, longest match).
- `enemy_prompt.dfy` (`EnemyPrompt`): the request and the stat ranges the
  prompt embeds.
- `enemy_generator.dfy` (`EnemyGenerator`): the outbound payload, the `try`
  block with every exception it can raise, and the fallback decision. The
  backend (`requests.post` plus `response.json()`) and `json.loads` are
  function parameters.
- `json_values.dfy` (`JsonValues`) and `wrappers.dfy` (`Wrappers`): decoded
  JSON values and `Option`/`Result`.

Behaviour of the code worth knowing, which the model keeps:

- A body without a `"response"` key, or a reply with no `}` after its first
  `{`, gives the empty object, not the canned enemy. The missing key becomes
  `""`, `clean_json` turns that into `{}`, and `{}` parses to an empty object.
- The HTTP status is never consulted. An error body that decodes to a JSON
  object without a `"response"` key also yields the empty object.
- There is no field coercion, clamping, array extraction, timeout or bracket
  balancing.
- An object embedded in prose is returned exactly when, and only when, the
  prose before it has no `{` and the prose after it has no `}`
  (`CleanJsonDropsSurroundingProse` and
  `CleanJsonIsolatesOnlyBetweenBraceFreeProse`). Text between two objects is kept
  (`CleanJsonKeepsTextBetweenObjects`).

## Model

| member | source | states |
|---|---|---|
| JsonExtract.CleanJson | ai_generator.py:18-23 | The result always starts with `{`, ends with `}` and has length at least 2. It is exactly `{}` when no `}` follows a `{`. Otherwise it is `text[i..j+1]`, where `i` is the first `{` (none before it) and `j` is the last `}` (none after it). |
| JsonExtract.FirstIndexOf | ai_generator.py:20 | The first occurrence of a character: it is that character and none occurs before it. `None` exactly when the character is absent. |
| JsonExtract.LastIndexOf | ai_generator.py:20 | The last occurrence of a character: none occurs after it. `None` exactly when the character is absent. |
| JsonExtract.CleanJsonIsSubstring | ai_generator.py:20-23 | The result is either the literal `{}` or a substring of the reply. |
| JsonExtract.SearchResultExists | ai_generator.py:20-21 | The pattern `\{.*\}` matches somewhere exactly when a `{` is followed later by a `}`. A match then has a leftmost-longest result. |
| JsonExtract.CleanJsonIsRegexSearch | ai_generator.py:20-23 | Agrees with the regex reference: `{}` when the search fails, otherwise `match.group(0)` of the leftmost-longest match. |
| JsonExtract.CleanJsonFixedPoints | ai_generator.py:18-23 | A string is returned unchanged if and only if it starts with `{` and ends with a later `}`. |
| JsonExtract.CleanJsonIdempotent | ai_generator.py:18-23 | Cleaning an already cleaned reply changes nothing. |
| JsonExtract.CleanJsonDropsSurroundingProse | ai_generator.py:20-22 | Prose before the object is removed if it has no `{`. Prose after the object is removed if it has no `}`. The object is returned verbatim. |
| JsonExtract.CleanJsonIsolatesOnlyBetweenBraceFreeProse | ai_generator.py:20-22 | Conversely, if the embedded object comes back verbatim, the prose before it has no `{` and the prose after it has no `}`. Any such brace would widen the greedy span. |
| JsonExtract.CleanJsonKeepsTextBetweenObjects | ai_generator.py:20 | The span is greedy: for two objects with text between them, the whole stretch is returned and the first object is not isolated. |
| JsonExtract.GreedyExample | ai_generator.py:20 | On `{"a": 1} prose {"b": 2}` the result is the whole text, not `{"a": 1}`. |
| EnemyPrompt.EnemyStatRanges | ai_generator.py:33-35 | For level L, all three ranges are ordered (lo ≤ hi) if and only if L ≥ 0, and all are inverted if and only if L < 0, because nothing bounds the level. Positive levels give positive, strictly increasing bounds. Level 0 gives all zeros. |
| EnemyPrompt.StatRangesPerLevel | ai_generator.py:33-35 | Level 1 gets (15, 25), (2, 5) and (10, 20). Each further level adds those amounts to the bounds. |
| EnemyPrompt.BuildPrompt | ai_generator.py:28-38 | The prompt carries the request's level and environment. Its ranges are exactly `EnemyStatRanges` of that level (health 15L–25L, attack 2L–5L, XP 10L–20L), so they are ordered exactly when the level is non-negative. |
| EnemyGenerator.ReplyText | ai_generator.py:51 | The reply text exists exactly when the body decoded to an object whose `"response"` member is a string or is missing; it is that string (or `""`). |
| EnemyGenerator.ResponseMember | ai_generator.py:51 | `.get("response", "")`: raises exactly when the decoded body is not an object. A missing key gives `""`. |
| EnemyGenerator.CleanResponse | ai_generator.py:51-55 | `clean_json(raw_text)`: for a string it is `CleanJson` of that string. For any other value it raises TypeError naming that value's type. |
| EnemyGenerator.TryGenerate | ai_generator.py:48-56 | Gives every outcome of the `try` block. A failed POST or decode raises with its message. A non-object body raises AttributeError. A non-string `"response"` raises TypeError. When the reply text reaches `json.loads`, a parse error raises ParseError with its message; otherwise the parse of this reply's `clean_json` span is the value. |
| EnemyGenerator.GenerateEnemy | ai_generator.py:25-58 | Every exception from the `try` gives the canned enemy with that exception. Otherwise the result is what `json.loads` made of the `clean_json` span of the backend's reply to this request's payload. So the result is always one or the other. |
| EnemyGenerator.OnePayloadPerRequest | ai_generator.py:42-49 | The payload names model `qwen2.5:3b`, carries the request's prompt and has `stream` false. The result depends on the backend only through its answer to that one payload. |
| EnemyGenerator.FallbackRecordShape | ai_generator.py:57-58 | The canned enemy has exactly the keys `error`, `name`, `health`, `attack_power` and `xp_reward`. Its values are `str(e)`, "Glitch Ghost", 50, 5 and 10. It is never the empty object. |
| EnemyGenerator.TransportFailureGivesFallback | ai_generator.py:48-58 | An exception from the POST or from decoding the body gives the canned enemy with that exception's message. |
| EnemyGenerator.MalformedBodyGivesFallback | ai_generator.py:51-58 | Two cases give the canned enemy: a body that is not an object (AttributeError), and a "response" value that is not a string (TypeError). |
| EnemyGenerator.ReplyTextIsParsed | ai_generator.py:51-58 | A parse error gives the canned enemy with the parser's message. A parsed object is returned unchanged. |
| EnemyGenerator.MissingResponseGivesEmptyObject | ai_generator.py:51-56 | With no "response" key, `{}` is parsed and the empty object is returned. That is not the canned enemy. |
| EnemyGenerator.BracelessReplyGivesEmptyObject | ai_generator.py:51-56 | A reply with no `}` after its first `{` also gives the empty object, not the canned enemy. |

## Left out

- HTTP plumbing is not modelled: FastAPI routing and request validation, `requests.post` and `OLLAMA_URL`. The network and the decoding of the body are a `Backend` parameter that returns a failure with a message or a decoded JSON value.
- `json.loads` is a `Parser` parameter: a function from text to an error message or an object. Its inputs are always braced, so a success is taken to be an object. Its internals (a foreign library) are not modelled.
- Only the values the prompt embeds are modelled: level, environment and the three ranges. Its prose and the rendering of integers into it are free-form text for the model.
- EnemyGenerator.Describe: the messages of the AttributeError and TypeError raised inside the `try` follow recent CPython wording. Other interpreter versions word them differently. The messages of the POST, decode and parse errors are taken from the outcome as given.
- JSON floats are kept as their textual form. The generator never computes with them.
- Not modelled: the Django views, models, URL tables and admin registration (`game/views.py`, `game/models.py`, `game/urls.py`, `core/urls.py`, `game/admin.py`). They are ORM queries, field defaults and route tables with no logic beyond a string join. `game/views.py` defines only `character_list`; `main_menu`, `quest_log`, `basic_combat` and the other views routed at core/urls.py:8 and game/urls.py:7-15 are not defined there.
- EnemyGenerator.GenerateEnemy: "never raises" holds of the model only. The `print` logging and the rendering of the prompt are not modelled. The print of the reply (ai_generator.py:52) is inside the `try`, so a failed write there gives the canned enemy instead of the parse. The prompt f-string (ai_generator.py:28-38) and its print (ai_generator.py:40) are outside the `try`. A failure there propagates to the caller, for example when stdout cannot encode the environment, or when a huge level exceeds CPython's limit on int-to-string digits.
- JSON objects are a `map`, so the key order of the dict returned to the caller is not kept. Strings are Dafny `char` sequences, which cannot hold the lone surrogates a Python `str` may carry. Neither affects a decision the generator makes.
