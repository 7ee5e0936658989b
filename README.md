# CLARIFY.MD deterministic core, in Dafny

CLARIFY.MD turns a patient's free-text narrative into a clinician-facing
interpretation. Four language-model agents do the interpretation: metaphor
translation, emotional biomarkers, risk and red flags, and clinical synthesis.
Around them sits the logic the system itself owns, and that logic is what this
project models and proves things about:

- the deterministic risk override, which escalates the risk agent's verdict
  when fixed trigger phrases occur in the narrative (`risk_override.dfy`);
- `run_clarify` and `run_what_if`. `run_clarify` sequences the agents, builds
  the synthesis context from the overridden risk, assembles the fixed-key
  result and hands it to the guardrails. `run_what_if` reduces two runs to
  four keys each (`orchestrator.dfy`);
- the safety guardrails: forbidden-term detection, neutralisation of five
  diagnostic words in the summary, violation recording, disclaimer injection
  and uncertainty flagging (`guardrails.dfy`);
- the agents' output contracts. Every key is filled from a parse-or-default
  structured reply. The emotion agent also has an array parse, an intensity
  filter and a summary rule, and every agent records its reasoning step
  (`agents.dfy`, `engine.dfy`);
- the local medical ontology and its top-k retrieval (`ontology.dfy`);
- the two clinician formatters, current (`formatter_v2.dfy`) and legacy
  (`formatter_v1.dfy`);
- the dashboard's in-memory patient store (`dashboard.dfy`).

The models of Python's own behaviour that these need are in separate files:
- `py.dfy`: dynamic values, dicts as insertion-ordered entry lists, and the
  exceptions the built-ins raise;
- `text.dfy`: ASCII case mapping, `strip`, `find`, `split`;
- `rewrite.dfy`: literal and case-insensitive replacement, and the three
  fixed regexes;
- `wrappers.dfy`: `Option` and `Result`.

Python exceptions are values, never preconditions. Every operation that can
raise returns a `Result` or an `Outcome`, which carries the dict as it stands
plus the error. So the model states which inputs make the code raise, as well
as what it returns otherwise.

The engine's replies are inputs. A run of the pipeline takes a `Replies`
record: the text each agent's reasoning call, summary call and
structured-output call came back with. The model proves what CLARIFY.MD does
with any such replies.

Where the code goes through an object that changes in place, the model uses a
class:
- the risk dict the override rewrites, and the result dict the guardrails
  rewrite, are `Py.Dict`;
- each agent keeps its `reasoningSteps`;
- the orchestrator owns four agents;
- the dashboard store keeps a patient map and the map's insertion order.

Each such method is proved against a function of the old state. The
properties are proved as lemmas about that function.

## Model

| member | source | states |
|---|---|---|
| RiskOverride.Fired | orchestrator_v2.py:74-77 | The labels reported are at most one per table row; every phrase that occurs contributes its label; every label reported belongs to a phrase that occurs. |
| RiskOverride.ScanTriggers | orchestrator_v2.py:74-77 | The scanning loop yields exactly the labels of the phrases contained in the text, in table order. |
| RiskOverride.FiresIffPhrase | orchestrator_v2.py:46-79 | Some label fires for a narrative if and only if some trigger phrase occurs in the lower-cased narrative. |
| RiskOverride.FitFiresInBenefit | orchestrator_v2.py:68-77 | Triggers are raw substrings: the narrative "The Benefit was clear" fires the seizure label through "fit". |
| RiskOverride.InputLevel | orchestrator_v2.py:47 | The level read is the lower-cased `str()` of the stored level (default "low") and holds no upper-case letter. |
| RiskOverride.InputFlags | orchestrator_v2.py:48 | A list of red flags is read as its items; `list()` of a falsy value gives the empty list; only TypeError can be raised. |
| RiskOverride.InputRationale | orchestrator_v2.py:49 | A string rationale is read as that string; any other value survives only when truthy (a falsy one becomes ""). |
| RiskOverride.InputUrgency | orchestrator_v2.py:50 | A numeric urgency is read as that number; anything else goes through `float()`, which may raise. |
| RiskOverride.Read | orchestrator_v2.py:46-50 | The reads succeed exactly when both `list()` and `float()` succeed, the `list()` error comes first, and the level read is lower-case. |
| RiskOverride.MergeThenAdd | orchestrator_v2.py:87-93 | After the merge and the note, the old flags are a prefix; every label is present; what is added is new, added once, and either a label or the note. |
| RiskOverride.AppendNew | orchestrator_v2.py:91-93 | The note is present afterwards; an existing note leaves the list unchanged; a missing one is appended at the end. |
| RiskOverride.Marked | orchestrator_v2.py:95-96 | A rationale whose lower-cased form already holds "deterministic_override" is left exactly as it is. |
| RiskOverride.Escalate | orchestrator_v2.py:79-96 | With no fired label the reading is unchanged; with one, escalation succeeds exactly when the rationale is a string, and fails only with AttributeError. |
| RiskOverride.WriteBack | orchestrator_v2.py:98-101 | The write-back raises exactly when the rationale is not a string (from `strip()`). |
| RiskOverride.WriteBackLookup | orchestrator_v2.py:98-101 | After the write-back, the four written keys hold the level, urgency, flags and stripped rationale, and every other key keeps its old value. |
| RiskOverride.Override | orchestrator_v2.py:34-103 | A failed read raises before any write and leaves the dict as it was. |
| RiskOverride.OverrideFields | orchestrator_v2.py:79-103 | A successful call stores the escalated level, urgency, flags and stripped rationale, and leaves every other key of the dict unchanged. |
| RiskOverride.EscalatesToHigh | orchestrator_v2.py:79-82 | When a label fired, the level contains "high"; it is exactly "high" unless the level read already contained "high". |
| RiskOverride.NeverDowngrades | orchestrator_v2.py:81-82 | A level that already contains "high" is kept exactly as read. |
| RiskOverride.UrgencyRaised | orchestrator_v2.py:79-84 | The urgency never decreases; it is at least 0.8 when a label fired and unchanged when none did. |
| RiskOverride.FlagsMerged | orchestrator_v2.py:86-93 | The flags read are a prefix of the result; every fired label and the escalation note are present; each added flag is new, added once, and is either a fired label or the note. |
| RiskOverride.NoteOnce | orchestrator_v2.py:91-93 | If the escalation note was not among the flags read, it occurs exactly once afterwards. |
| RiskOverride.SuffixHasMarker | orchestrator_v2.py:95-96 | The appended suffix, lower-cased, begins with the marker "deterministic_override". |
| RiskOverride.MarkedHasMarker | orchestrator_v2.py:95-101 | A marked rationale contains the marker, even after stripping. |
| RiskOverride.RationaleMarked | orchestrator_v2.py:95-101 | After escalation the stored (stripped) rationale contains the marker, and a rationale that already held it is kept unchanged. |
| RiskOverride.NoTriggerNormalises | orchestrator_v2.py:46-101 | With no trigger, the only changes are normalisation: lower-cased level, float urgency, flags as a list, stripped rationale; every other key is unchanged. |
| RiskOverride.LevelStaysLower | orchestrator_v2.py:47-82 | Escalation keeps the level free of upper-case letters. |
| RiskOverride.EscalateSettled | orchestrator_v2.py:79-96 | Escalating an already escalated reading, with its rationale stripped, changes nothing. |
| RiskOverride.ReadOf | orchestrator_v2.py:46-50 | Reading a dict that holds a lower-case level, a number, a list and a string gives back exactly those values. |
| RiskOverride.ReadBack | orchestrator_v2.py:46-101 | Reading the overridden dict back gives the escalated reading with its rationale stripped. |
| RiskOverride.RewriteSame | orchestrator_v2.py:98-101 | Writing back values a dict already holds leaves the dict unchanged. |
| RiskOverride.Idempotent | orchestrator_v2.py:34-103 | Applying the override to its own successful result changes nothing and raises nothing. |
| RiskOverride.OverrideErrors | orchestrator_v2.py:46-101 | The call succeeds exactly when the reads succeed and the rationale is a string. A non-string rationale raises AttributeError: before any write when a label fired, after the other three writes when none did. |
| RiskOverride.MergeFlags | orchestrator_v2.py:87-89 | The merging loop computes the ordered, duplicate-free union that `Py.Merge` specifies. |
| RiskOverride.WriteInto | orchestrator_v2.py:98-101 | The dict is updated in place to exactly the write-back's state, and the error raised is the write-back's. |
| RiskOverride.Escalated | orchestrator_v2.py:46-101 | The in-place reads, escalation and writes leave the dict as `Override` describes and return its error. |
| RiskOverride.ApplyOverride | orchestrator_v2.py:34-103 | The whole method, given the narrative, leaves the caller's dict and error exactly as `Override` does for the labels that fire. |
| Py.Merge | orchestrator_v2.py:87-89 | The old list is a prefix of the result, every label is present, and what is added is new, distinct and drawn from the labels. |
| Py.MergePresent | orchestrator_v2.py:87-89 | Merging labels that are all present already changes nothing. |
| Py.LookupMeaning | orchestrator_v2.py:47-50 | `d[k]` is missing exactly when no entry has key k, and a value found belongs to an entry with key k. |
| Py.StoreLookup | orchestrator_v2.py:98-101 | After `d[k] = v`, key k reads v and every other key reads what it read before. |
| Py.StoreKeys | orchestrator_v2.py:98-101 | Assigning keeps the key order, and a new key goes last. |
| Py.StoreSame | orchestrator_v2.py:98-101 | Assigning the value a key already has leaves the dict unchanged. |
| Py.Dict.Set | orchestrator_v2.py:98-101 | An in-place `d[k] = v` leaves the entries as `Store` describes, with k reading v. |
| Py.Member | safety_guardrails.py:152 | `x in v` tests substring on a string, element on a list and key on a dict; it raises TypeError on None, booleans and numbers. |
| Py.Append | safety_guardrails.py:153 | `append` extends a list at its end; on any other value it raises AttributeError. |
| Py.ToFloat | orchestrator_v2.py:50 | `float()` returns a number as itself and raises TypeError on a list, dict or None. |
| Py.ToList | orchestrator_v2.py:48 | `list()` copies a list and raises TypeError on None, booleans and numbers. |
| Py.JoinStrs | formatter/clinical_formatter_v2.py:65 | `join` succeeds exactly when every item is a string, and then joins their texts; otherwise it raises TypeError. |
| Text.Lower | orchestrator_v2.py:46 | `lower()` keeps the length and lower-cases each character. |
| Text.LowerIsLower | orchestrator_v2.py:47 | A lower-cased string holds no upper-case letter, and lower-casing again changes nothing. |
| Text.Find | gemini_config.py:169 | `find` returns -1 exactly when the character is absent; otherwise it returns the index of its first occurrence. |
| Text.RFind | gemini_config.py:170 | `rfind` returns -1 exactly when the character is absent; otherwise it returns the index of its last occurrence. |
| Text.Upper | dashboard_models.py:277-281 | `upper()` keeps the length and upper-cases each character. |
| Text.Capitalize | formatter/clinical_formatter.py:45 | `capitalize()` upper-cases the first character and lower-cases the rest. |
| Text.Strip | orchestrator_v2.py:101 | `strip()` leaves no whitespace at either end and removes only whitespace. |
| Text.StripIdempotent | orchestrator_v2.py:101 | Stripping a stripped string changes nothing. |
| Text.StripKeepsWord | orchestrator_v2.py:95-101 | A word with no whitespace at either end that occurs in the lower-cased string still occurs after stripping. |
| Text.Split | agents/base_agent.py:66 | `split(c)` yields parts that hold no `c` and that join back to the original string. |
| Text.SplitNonEmpty | agents/base_agent.py:66 | A key that neither starts nor ends with `/` and has no `//` splits into non-empty words only. |
| Rewrite.FirstHit | safety_guardrails.py:74-80 | The match found is the leftmost occurrence from the start position; -1 means there is none. |
| Rewrite.Replace | safety_guardrails.py:74-80 | A text with no occurrence of the pattern is returned unchanged. |
| Rewrite.ReplaceAvoids | safety_guardrails.py:74-80 | Replacing p with a compatible r leaves no occurrence of q, provided q is p or q was absent before; this covers plain and case-insensitive replacement. |
| Rewrite.LookaheadCompatible | safety_guardrails.py:66-72 | The three-character look-ahead test implies that gluing r between q-free texts cannot create q. |
| Rewrite.RemoveEach | formatter/clinical_formatter_v2.py:152-153 | The removal loop deletes the labels one at a time, in list order. |
| Rewrite.ReplaceEach | formatter/clinical_formatter_v2.py:167-168 | The replacement loop applies the pairs one at a time, in list order. |
| Rewrite.CollapseSpaces | formatter/clinical_formatter_v2.py:171 | `\s+` collapsing yields single-spaced text that is empty only for empty input and starts with a space exactly when the input did. |
| Rewrite.CollapseKeepsVisible | formatter/clinical_formatter_v2.py:171 | Collapsing whitespace keeps every non-whitespace character, in order. |
| Rewrite.CollapseRuns | formatter/clinical_formatter_v2.py:123 | After a `{2,}` run of class characters is replaced, no two adjacent characters belong to the class. A first character from outside the class is kept, and a first character from the class becomes a class character or a space. |
| Rewrite.StripHeading | formatter/clinical_formatter_v2.py:156 | `^#+\s*` removes a prefix made only of `#` and whitespace. On a text starting with `#` it removes something, and what is left does not start with whitespace; on any other text it removes nothing. |
| Guardrails.Found | safety_guardrails.py:39-44 | At most one report per table term. |
| Guardrails.FoundMeaning | safety_guardrails.py:39-44 | A term is reported exactly when it is in the table and occurs in the text. |
| Guardrails.FoundSplit | safety_guardrails.py:40-42 | Terms are reported in table order: those of an earlier part of the table come first. |
| Guardrails.CheckForbiddenTerms | safety_guardrails.py:34-44 | The loop returns exactly the terms found in the lower-cased text, from the diagnostic table for "diagnostic" and from the treatment table otherwise. |
| Guardrails.Coerce | safety_guardrails.py:50-63 | A string is kept; a list becomes its items' `str()` joined by spaces; None becomes "". |
| Guardrails.SanitizeOutput | safety_guardrails.py:47-82 | The coercion and the replacement loop compute `Sanitized`. |
| Guardrails.NeutralisedRemovesAll | safety_guardrails.py:74-80 | After the substitutions of a guarded table, none of its patterns is left, in any case. |
| Guardrails.NeutralGuarded | safety_guardrails.py:66-72 | No replacement of the five-word table can rebuild a pattern at or before it. |
| Guardrails.SanitizedHasNoKey | safety_guardrails.py:47-82 | Whatever the input, the sanitised text holds none of the five replaced words, in any case. |
| Guardrails.NeutralisedUnchanged | safety_guardrails.py:74-80 | A text holding none of the patterns, in any case, passes through unchanged. |
| Guardrails.NeutralisedConcat | safety_guardrails.py:74-80 | Substituting with two tables in turn equals substituting with the joined table. |
| Guardrails.DiagnosticSurvives | safety_guardrails.py:66-72 | "diagnostic" is in the diagnostic table, yet sanitising leaves it untouched and the scan still reports it. |
| Guardrails.DiseaseBecomesCondition | safety_guardrails.py:66-72 | "disease" is sanitised into "condition", which the diagnostic scan reports too. |
| Guardrails.Prefixed | safety_guardrails.py:121-123 | Each violation message is the prefix followed by the term, one message per term. |
| Guardrails.FieldViolations | safety_guardrails.py:116-123 | A field that is not a non-empty string yields no violation. |
| Guardrails.FieldViolationsMeaning | safety_guardrails.py:115-123 | A message is recorded for a field exactly when it is "Diagnostic term found: " or "Treatment term found: " followed by a table term that the lower-cased field contains. |
| Guardrails.AllViolations | safety_guardrails.py:113-123 | Every message comes from one of the scanned fields. |
| Guardrails.TextFields | safety_guardrails.py:90-113 | Exactly three texts are scanned: the summary's, the metaphor's and the risk's. |
| Guardrails.ScanFields | safety_guardrails.py:115-123 | The scanning loop collects exactly `AllViolations` of the three fields. |
| Guardrails.ValidateOutput | safety_guardrails.py:85-144 | The result dict is rewritten in place to exactly `Validated` of its old entries. |
| Guardrails.SanitizeKeyOf | safety_guardrails.py:131-134 | A key that is present with a truthy value gets that value sanitised in place. |
| Guardrails.SanitizeSummaryDict | safety_guardrails.py:129-140 | The three updates of a dict summary compute `SanitizedDict`. |
| Guardrails.ViolationsRecorded | safety_guardrails.py:126-127 | Without violations the result is returned unchanged; with them, "safety_violations" holds exactly the messages found. |
| Guardrails.OnlySummaryRewritten | safety_guardrails.py:125-142 | Every key but "summary" and "safety_violations" keeps its value, so the metaphor and the risk are scanned but never changed. |
| Guardrails.SanitizedKeyLookup | safety_guardrails.py:131-134 | Sanitising one key changes no other key and leaves a falsy value as it is. |
| Guardrails.SanitizedStructuredLookup | safety_guardrails.py:135-138 | Sanitising the structured part changes no other key. |
| Guardrails.SummaryDictKeepsOthers | safety_guardrails.py:129-139 | In a dict summary, only the full and raw summaries and the structured part may change, and a falsy full or raw summary is left as it is. |
| Guardrails.TextSummarySanitized | safety_guardrails.py:141-142 | When violations are found, a non-dict summary comes back as a string free of the five replaced words. |
| Guardrails.WithDisclaimers | safety_guardrails.py:149-153 | On a list, each missing disclaimer is appended in order; any other value that does not raise is left as it is. |
| Guardrails.AppendMissing | safety_guardrails.py:151-153 | The disclaimer loop computes `WithDisclaimers` of the notes. |
| Guardrails.DisclaimersFailureSticks | safety_guardrails.py:151-153 | Once a disclaimer test has raised, the loop's outcome is that error, whatever follows. |
| Guardrails.AddDisclaimers | safety_guardrails.py:147-156 | When the call raises, the dict is left unchanged. |
| Guardrails.DisclaimersHeld | safety_guardrails.py:151-153 | After a run that does not raise, every disclaimer is `in` the notes. |
| Guardrails.DisclaimersSettled | safety_guardrails.py:151-153 | Notes that already hold every disclaimer are returned unchanged, whatever their type. |
| Guardrails.DisclaimersError | safety_guardrails.py:152-153 | The exception is AttributeError on a string or dict (from `append`) and TypeError otherwise (from `in`). |
| Guardrails.AddDisclaimersMeaning | safety_guardrails.py:147-156 | The call raises exactly when the notes are not a list and miss a disclaimer, and then changes nothing; otherwise the notes are present and hold every disclaimer. |
| Guardrails.DisclaimersOnList | safety_guardrails.py:147-156 | On a list of notes, or none, the call never raises: the old notes stay first, in order, and each missing disclaimer is appended once. |
| Guardrails.AddDisclaimersIdempotent | safety_guardrails.py:147-156 | Running `add_disclaimers` again changes nothing. |
| Guardrails.AddDisclaimersKeepsOthers | safety_guardrails.py:155 | Only the notes change. |
| Guardrails.AddDisclaimersTo | safety_guardrails.py:147-156 | The result dict is updated in place as `AddDisclaimers` describes, and the same exception is returned. |
| Guardrails.Uncertainties | safety_guardrails.py:168-176 | The uncertainties used are always truthy: the given ones, or the three defaults. |
| Guardrails.RationaleText | safety_guardrails.py:181-186 | The rationale text searched for the phrases is lower-case. |
| Guardrails.SecondPhraseRedundant | safety_guardrails.py:188-191 | The second phrase contains the first, so the test is the same as looking for "no clinical information" alone. |
| Guardrails.Flagged | safety_guardrails.py:192-198 | A clinical narrative leaves the uncertainties unchanged; a list stays a list; truthy uncertainties stay truthy. |
| Guardrails.EnforceUncertainty | safety_guardrails.py:159-201 | When the call raises, the dict is left unchanged. |
| Guardrails.EnforceUncertaintyOn | safety_guardrails.py:159-201 | The result dict is updated in place as `EnforceUncertainty` describes, and the same exception is returned. |
| Guardrails.UncertaintiesNeverEmpty | safety_guardrails.py:168-200 | After a run that does not raise, the uncertainties are present and non-empty. |
| Guardrails.DefaultsWhenEmpty | safety_guardrails.py:171-198 | Missing or empty uncertainties become the three defaults, followed by the message exactly when the narrative is non-clinical. |
| Guardrails.MessageOnList | safety_guardrails.py:188-200 | On a list of uncertainties, the message ends up present exactly when it was there already or the narrative is non-clinical. The list only grows at its end, by at most that one message, and the message is never duplicated. |
| Guardrails.EnforceErrors | safety_guardrails.py:188-198 | The call raises exactly when the narrative is non-clinical and the uncertainties are a truthy non-list without the message; the error is AttributeError on a string or dict and TypeError otherwise. |
| Guardrails.EnforceKeepsOthers | safety_guardrails.py:200 | Only the uncertainties change; the risk is untouched. |
| Guardrails.Guard | safety_guardrails.py:204-215 | A stage that raises stops the chain, leaving the state after validation or after disclaimers. |
| Guardrails.ApplySafetyGuardrails | safety_guardrails.py:204-215 | Validation, disclaimers and uncertainty flagging run in that order on the same dict, which ends up as `Guard` describes. |
| Guardrails.GuardPromises | safety_guardrails.py:204-215 | Violations found are recorded; unless a stage raised, every disclaimer is in the notes and the uncertainties are non-empty. |
| Guardrails.GuardRaisesOnlyOnOddTypes | safety_guardrails.py:147-201 | Notes and uncertainties that are lists, or missing, never make a stage raise. |
| Guardrails.GuardKeepsOthers | safety_guardrails.py:204-215 | Every key the guardrails do not write keeps its value. |
| Ontology.Category | agents/base_agent.py:64-65 | An unknown category yields nothing; a known one yields the table stored under it. |
| Ontology.MatchesExactly | agents/base_agent.py:65-67 | A concept is retrieved exactly when it is a value of a key that has a `/`-separated word occurring in the query. |
| Ontology.RagQuery | agents/base_agent.py:57-61 | A string query is lower-cased; a falsy query becomes "". |
| Ontology.Retrieve | agents/base_agent.py:53-69 | An unknown category retrieves nothing; a known one retrieves the first k matches in key and value order. |
| Ontology.RetrieveBounded | agents/base_agent.py:66-69 | At most k concepts are retrieved, each from a matching key. |
| Ontology.NothingMatches | agents/base_agent.py:65-67 | When no key matches, nothing is retrieved. |
| Ontology.EmptyQueryRetrievesNothing | agents/base_agent.py:58-66 | When every key word is non-empty, the empty query retrieves nothing. |
| Ontology.LocalOntologySearch.constructor | google_integrations.py:40-48 | The search object holds the given ontology. |
| Ontology.LocalOntologySearch.Search | google_integrations.py:50-58 | The matching loop computes `SearchSpec`: a truthy non-string query raises AttributeError; otherwise the first k matches, or [] for an unknown category. |
| Ontology.SearchSpec | google_integrations.py:51 | AttributeError is raised exactly for a truthy non-string query. |
| Ontology.SearchIsUseRag | google_integrations.py:50-58 | For a string or falsy query, `search(q, c, 5)` equals `use_rag(q, c)`. |
| Ontology.MedicalOntologyShape | gemini_config.py:195-221 | The ontology has exactly metaphors, emotional_biomarkers and risk_indicators, in that order, and every key splits into non-empty words. |
| Ontology.EmptyMedicalQuery | google_integrations.py:51-56 | A missing or empty query retrieves nothing from the medical ontology, for any category and k. |
| Engine.GenerateTotal | gemini_config.py:105-153 | `generate` never raises. A reply gives its text, no candidate gives the fixed notice, a not-found error on a name without "-latest" with a retry that replies gives the retry's text, and every other error gives "Error: " followed by the message. |
| Engine.RetryOnlyWhenNotFound | gemini_config.py:112-117 | The "-latest" fallback model matters only after a not-found error on a name without "-latest". |
| Engine.Bracketed | gemini_config.py:169-173 | A window cut out runs from the first opening bracket to the last closing one, inclusive. |
| Engine.BracketedIffPaired | gemini_config.py:169-171 | A window is cut out exactly when an opening bracket precedes a closing one. |
| Engine.GenerateStructured | gemini_config.py:155-178 | When the reply's window from the first `{` through the last `}` parses as an object, the result is that object; when there is no such window, or it does not parse, the result is the fallback schema. |
| Engine.StructuredFallback | gemini_config.py:169-178 | Without a `{` followed somewhere by a `}`, the schema comes back unchanged. |
| Engine.StructuredParse | gemini_config.py:169-178 | With a `{` followed by a `}`, the window is the slice from the first `{` through the last `}`, and the result is its parse, or the schema when it does not parse. |
| Engine.StructuredOf | gemini_config.py:169-178 | A reply whose cut-out window is `w` yields the parse of `w` when it parses as an object, and the schema otherwise. |
| Engine.PairedWindow | gemini_config.py:169-172 | When an opening bracket precedes a closing one, the window cut out is exactly the slice from the first opening bracket through the last closing one. |
| Agents.Filled | agents/risk_agent_v2.py:78-83 | Every schema key is present, in schema order, with the reply's value when the reply has the key and the schema default otherwise. |
| Agents.FilledBySchema | agents/risk_agent_v2.py:64-83 | A reply that is the schema itself yields the schema unchanged. |
| Agents.RiskSchemaKeys | agents/risk_agent_v2.py:64-72 | The risk agent's fallback schema has no repeated key. |
| Agents.RiskOutputFillsSchema | agents/risk_agent_v2.py:76-85 | The result is the reasoning, then the six schema keys filled from the reply, then the retrieved concepts. |
| Agents.RiskFromReply | agents/risk_agent_v2.py:64-85 | For a reply whose `{ ... }` window parses, every risk field is that object's value for the key, or the default when it lacks the key. |
| Agents.RiskFallback | agents/risk_agent_v2.py:64-85 | A reply with no `{ ... }` yields "low", "medium", [], [], "" and 0.0. |
| Agents.RiskDefaults | agents/risk_agent_v2.py:64-83 | The fallback schema carries the same defaults as the `.get` calls. |
| Agents.RiskPredict | agents/risk_agent_v2.py:90-93 | `predict` returns exactly the keys risk_level and confidence. |
| Agents.RiskPredictProjects | agents/risk_agent_v2.py:87-93 | `predict` reports the level and confidence that `execute` computed from the reply. |
| Agents.MetaphorSchemaKeys | agents/metaphor_agent_v2.py:62-69 | The metaphor agent's fallback schema has no repeated key. |
| Agents.MetaphorOutputFillsSchema | agents/metaphor_agent_v2.py:73-80 | The result is the reasoning, then the four schema keys filled from the reply, then the retrieved concepts. |
| Agents.MetaphorFromReply | agents/metaphor_agent_v2.py:62-80 | For a reply whose `{ ... }` window parses, every metaphor field is that object's value for the key, or the default when it lacks the key. |
| Agents.MetaphorFallback | agents/metaphor_agent_v2.py:62-80 | A reply with no `{ ... }` yields no metaphors and an empty translation. |
| Agents.MetaphorDefaults | agents/metaphor_agent_v2.py:64-78 | The fallback schema carries the same defaults as the `.get` calls. |
| Agents.TranslateIsTranslation | agents/metaphor_agent_v2.py:82-85 | `translate` returns the reply's translation, or "" when the reply has none. |
| Agents.Intensity | agents/emotion_agent_v2.py:81 | An intensity is usable exactly when comparing it with a float does not raise. |
| Agents.ParseEmotions | agents/emotion_agent_v2.py:67-76 | When the reply's window from the first `[` through the last `]` parses as an array, the emotions are that array; with no such window, or one that does not parse, there are none. |
| Agents.EmotionFromReply | agents/emotion_agent_v2.py:66-90 | For a reply whose `[ ... ]` window parses, `execute` succeeds exactly when the filter and the summary do, and keeps the significant entries of that array, the array itself and the summary of the significant entries. |
| Agents.Significant | agents/emotion_agent_v2.py:79-82 | The filter raises TypeError exactly when some dict's intensity cannot be compared. Otherwise it keeps exactly the entries of intensity at least 0.4. |
| Agents.SignificantConcat | agents/emotion_agent_v2.py:79-82 | The filter distributes over concatenation, so it keeps the reply's order. |
| Agents.FirstMarked | agents/emotion_agent_v2.py:97 | The index found is that of the first entry with intensity at least 0.7, or -1 when there is none. |
| Agents.EmotionSummary | agents/emotion_agent_v2.py:92-101 | No emotions give the no-distress sentence; a marked one names the first marked entry's clinical term; with none marked, the summary is the moderate sentence of `Moderate`. |
| Agents.Moderate | agents/emotion_agent_v2.py:101 | The moderate summary succeeds exactly when the first one or two names are strings, and is "Moderate emotional distress: " followed by them joined with ", "; otherwise it raises TypeError. |
| Agents.LeadingNames | agents/emotion_agent_v2.py:101 | At most the first two emotion names are used. |
| Agents.EmotionSummaryModerate | agents/emotion_agent_v2.py:101 | With two or more emotions and none marked, the summary names the first two, separated by a comma. |
| Agents.EmotionSummaryOne | agents/emotion_agent_v2.py:101 | A single unmarked emotion gives "Moderate emotional distress: " followed by its name alone. |
| Agents.EmotionSummaryNameError | agents/emotion_agent_v2.py:101 | With none marked, a leading name that is not a string makes the summary raise TypeError. |
| Agents.EmotionOutput | agents/emotion_agent_v2.py:66-90 | `execute` fails exactly when the filter or the summary raises. |
| Agents.EmotionFallback | agents/emotion_agent_v2.py:67-95 | A reply with no `[ ... ]` gives no emotions and the no-distress summary. |
| Agents.EmotionPredictIsSignificant | agents/emotion_agent_v2.py:103-106 | `predict` returns the filtered emotions. |
| Agents.SynthesisOutput | agents/synthesis_agent_v2.py:90-95 | The keys are reasoning, full_summary, structured and raw_summary, and full and raw summary are the same generated text. |
| Agents.LegacyContext | agents/synthesis_agent_v2.py:100-109 | A string is wrapped into a dict with keys patient_text, metaphor, emotions and risk; any other context is used as given. |
| Agents.Agent.constructor | agents/base_agent.py:14-18 | A new agent has its name, the medical ontology and no reasoning steps. |
| Agents.Agent.Reason | agents/base_agent.py:36-46 | Exactly one step {input, reasoning, agent} is appended, and {reasoning, agent} is returned. |
| Agents.Agent.UseRag | agents/base_agent.py:53-69 | The loop returns the first five concepts retrieved for the coerced, lower-cased query. |
| Agents.Agent.ExecuteRisk | agents/risk_agent_v2.py:31-85 | One reasoning step is recorded, and the result is the risk output with concepts from "risk_indicators". |
| Agents.Agent.ExecuteMetaphor | agents/metaphor_agent_v2.py:32-80 | One reasoning step is recorded, and the result is the metaphor output with concepts from "metaphors". |
| Agents.Agent.ExecuteEmotion | agents/emotion_agent_v2.py:31-90 | One reasoning step is recorded even when the filter then raises; the result is the emotion output. |
| Agents.Agent.ExecuteSynthesis | agents/synthesis_agent_v2.py:34-95 | The recorded step holds the JSON text of the context, and the result is the synthesis output. |
| Agents.Agent.LegacyGenerate | agents/synthesis_agent_v2.py:97-112 | The legacy wrapper records the wrapped context and returns the generated summary text. |
| Orchestrator.Len | orchestrator_v2.py:180 | `len` of a list is its length and never negative. |
| Orchestrator.RiskContext | orchestrator_v2.py:182-188 | The synthesis agent sees exactly five risk keys, in source order. |
| Orchestrator.ContextDict | orchestrator_v2.py:169-189 | The context has exactly patient_text, metaphor, emotion and risk. |
| Orchestrator.SynthesisContext | orchestrator_v2.py:169-189 | Building the context fails exactly when `len` of the emotions fails; otherwise the context is built from the given parts. |
| Orchestrator.ContextRiskIs | orchestrator_v2.py:182-188 | The context's risk part is the risk it was built from. |
| Orchestrator.RiskContextReads | orchestrator_v2.py:182-188 | Each of the five risk fields is the risk dict's own value for that key. |
| Orchestrator.ContextReadsRisk | orchestrator_v2.py:182-188 | The synthesis context's risk fields are read from the overridden risk passed in. |
| Orchestrator.ExtractReasoning | orchestrator_v2.py:195-206 | A string is returned as it is; a non-dict yields a string, "" when falsy. |
| Orchestrator.Assembled | orchestrator_v2.py:208-227 | The result has exactly the seven keys patient_voice, metaphor, emotions, risk, summary, agent_reasoning and processing_metadata, in that order. |
| Orchestrator.Unguarded | orchestrator_v2.py:153-227 | The run succeeds exactly when the emotion agent, the override and `len` all succeed. The emotion agent's error takes precedence over the override's, and a success is the assembled result. |
| Orchestrator.Finish | orchestrator_v2.py:208-232 | A failure before the guardrails is the run's failure; a successful run is the guarded, assembled result. |
| Orchestrator.ResultKeysUnique | orchestrator_v2.py:208-227 | The result dict's seven keys are distinct. |
| Orchestrator.GuardedAssembled | orchestrator_v2.py:208-230 | The guardrails keep every assembled key, and the value of every key but the summary. |
| Orchestrator.GuardKeepsSummary | orchestrator_v2.py:213-230 | The summary is still present after the guardrails. |
| Orchestrator.FinishKeepsAssembled | orchestrator_v2.py:208-232 | The returned result still holds every assembled key: the narrative as patient voice, the metaphor and emotion agents' dicts, the overridden risk and the constant metadata. |
| Orchestrator.FinishEscalates | orchestrator_v2.py:208-230 | Once a label has fired and the override has succeeded, the returned risk level contains "high" and its urgency is at least 0.8. |
| Orchestrator.ClarifyEscalates | orchestrator_v2.py:137-232 | Whenever a run succeeds on a narrative that contains a trigger phrase, the returned risk level contains "high" and the urgency is at least 0.8, whatever the agents replied. |
| Orchestrator.AgenticOrchestrator.constructor | orchestrator_v2.py:25-32 | Four distinct agents with no reasoning steps, over the medical ontology. |
| Orchestrator.AgenticOrchestrator.RunClarify | orchestrator_v2.py:137-232 | The run returns `Clarify`. Each agent that runs records exactly its one reasoning step, and the synthesis step records the context built from the overridden risk. |
| Orchestrator.AgenticOrchestrator.AssessRisk | orchestrator_v2.py:155-158 | The risk agent runs, records its step, and its result is overridden as `Override` describes. |
| Orchestrator.AgenticOrchestrator.Conclude | orchestrator_v2.py:168-232 | The context, the synthesis agent, the result dict and the guardrails produce `Finish`, with the synthesis step recording that context. |
| Orchestrator.AgenticOrchestrator.RunWhatIf | orchestrator_v2.py:105-135 | Two runs and the comparison of their reduced contexts produce `WhatIf`. |
| Orchestrator.Side | orchestrator_v2.py:116-127 | Each side has exactly metaphor, emotions, risk and summary, each defaulting to `{}`. |
| Orchestrator.WhatIfSeesFourKeys | orchestrator_v2.py:111-129 | The what-if agent sees, for each side, exactly that run's metaphor, emotions, risk and summary, and nothing else of it. |
| Orchestrator.SideOfFull | orchestrator_v2.py:116-127 | A result that holds every assembled key gives the what-if agent that key's own value. |
| ClinicalFormatter.Fixed | formatter/clinical_formatter_v2.py:38 | `.2f` formats a number and raises ValueError on a string. |
| ClinicalFormatter.JoinedLine | formatter/clinical_formatter_v2.py:64-68 | A falsy value gives no line; a truthy value gives one line that starts with the heading. |
| ClinicalFormatter.EmotionsOf | formatter/clinical_formatter_v2.py:12-15 | A bare list is used as it is; a dict gives its "emotions"; anything else raises AttributeError. |
| ClinicalFormatter.EmotionLine | formatter/clinical_formatter_v2.py:21-39 | One entry yields at most one line. |
| ClinicalFormatter.EmotionLines | formatter/clinical_formatter_v2.py:20-39 | The loop yields at most one line per entry. |
| ClinicalFormatter.EmotionClinical | formatter/clinical_formatter_v2.py:9-41 | A successful call always returns at least one line. |
| ClinicalFormatter.EmotionFailureSticks | formatter/clinical_formatter_v2.py:20-39 | Once an entry has raised, the loop's outcome is that error, whatever follows. |
| ClinicalFormatter.EmotionLineShown | formatter/clinical_formatter_v2.py:26-39 | A dict entry of intensity at least 0.4 gives exactly its one formatted line. |
| ClinicalFormatter.EmotionTextOpens | formatter/clinical_formatter_v2.py:27-37 | A formatted emotion line always starts with the badge's first byte. |
| ClinicalFormatter.Kept | formatter/clinical_formatter_v2.py:26-34 | The entries kept are entries of the input with intensity at least 0.4, at most as many as the input. |
| ClinicalFormatter.EntryLine | formatter/clinical_formatter_v2.py:21-39 | One pass of the loop body computes `EmotionLine`. |
| ClinicalFormatter.FormatEmotionClinical | formatter/clinical_formatter_v2.py:9-41 | The appending loop computes `EmotionClinical`. |
| ClinicalFormatter.EmotionLinesKept | formatter/clinical_formatter_v2.py:20-39 | Over well-typed entries the loop never raises, and it yields one line per entry of intensity at least 0.4, in order. |
| ClinicalFormatter.EmotionTextBadge | formatter/clinical_formatter_v2.py:27-37 | A kept line opens with the red "Marked" badge from 0.7 up and with the yellow "Moderate" badge below that, followed by the clinical term. |
| ClinicalFormatter.EmotionDefaultIff | formatter/clinical_formatter_v2.py:12-41 | With well-typed entries, the default line is returned exactly when no entry reaches 0.4, and a bare list formats like a dict that holds it. |
| ClinicalFormatter.MetaphorClinical | formatter/clinical_formatter_v2.py:44-70 | A string yields one line; a non-string non-dict raises AttributeError; on success there are one to three lines. |
| ClinicalFormatter.MetaphorDefaultIff | formatter/clinical_formatter_v2.py:57-70 | For a dict, the default line stands exactly when translation, metaphors and uncertainties are all falsy. |
| ClinicalFormatter.MetaphorOrder | formatter/clinical_formatter_v2.py:57-68 | The translation line comes first, then the metaphors line, then the uncertainties line, each only when its value is truthy. |
| ClinicalFormatter.RiskIcon | formatter/clinical_formatter_v2.py:89-94 | The icon lookup raises exactly for an unhashable (list or dict) level. |
| ClinicalFormatter.RiskIconIff | formatter/clinical_formatter_v2.py:89-94 | Red is for "high" only, yellow for "moderate" only, green for "low" only; any other level is white. |
| ClinicalFormatter.RiskDict | formatter/clinical_formatter_v2.py:76-77 | A dict is used as it is; anything else becomes a dict that holds only its level. |
| ClinicalFormatter.RiskClinical | formatter/clinical_formatter_v2.py:73-110 | A successful call yields one to four lines. |
| ClinicalFormatter.RiskLevelFirst | formatter/clinical_formatter_v2.py:96-110 | The first line always states the level with its icon, urgency and confidence; rationale, red flags and missing information add one line each, only when present. |
| ClinicalFormatter.LevelOnlyDefaults | formatter/clinical_formatter_v2.py:76-84 | A dict that holds only a level reads every other risk field as its default: urgency 0.0, empty rationale, no red flags, no missing information, confidence "medium". |
| ClinicalFormatter.RiskFromLevelOnly | formatter/clinical_formatter_v2.py:76-84 | A non-dict risk formats as a dict that holds only its level; a falsy one reads as "low". |
| ClinicalFormatter.Cleaned | formatter/clinical_formatter_v2.py:113-173 | Empty text cleans to ""; cleaned text has no whitespace at either end. |
| ClinicalFormatter.CleanSummary | formatter/clinical_formatter_v2.py:113-173 | The step-by-step rewriting computes `Cleaned`. |
| ClinicalFormatter.CleanedSingleSpaced | formatter/clinical_formatter_v2.py:170-173 | Cleaned text is single-spaced. |
| ClinicalFormatter.CleanedKeepsVisible | formatter/clinical_formatter_v2.py:170-173 | Collapsing and stripping keep every non-whitespace character of the toned text, in order. |
| ClinicalFormatter.StripKeepsVisible | formatter/clinical_formatter_v2.py:173 | `strip()` removes no non-whitespace character. |
| ClinicalFormatter.CleanedFixesClean | formatter/clinical_formatter_v2.py:113-173 | A text that is already clean comes back unchanged. |
| ClinicalFormatter.Structured | formatter/clinical_formatter_v2.py:184-188 | A non-dict summary has no structured part. |
| ClinicalFormatter.FullSummary | formatter/clinical_formatter_v2.py:184-211 | A string summary is its own text, and a list is joined with spaces. |
| ClinicalFormatter.SummaryPriority | formatter/clinical_formatter_v2.py:191-195 | "full_summary" wins over "raw_summary", which wins over the structured impression. |
| ClinicalFormatter.ImpressionWins | formatter/clinical_formatter_v2.py:256-264 | A truthy string impression replaces the cleaned text outright. |
| ClinicalFormatter.SummaryShape | formatter/clinical_formatter_v2.py:247-266 | With no text at all the summary is "Clinical summary unavailable."; otherwise it is single-spaced cleaned text. |
| ClinicalFormatter.AsList | formatter/clinical_formatter_v2.py:231-237 | A list stays as it is; anything else becomes a one-item list when truthy and an empty list when not. |
| ClinicalFormatter.NotesNeverEmpty | formatter/clinical_formatter_v2.py:235-245 | There is always at least one note, and the three defaults appear exactly when the summary gives none. |
| ClinicalFormatter.ViewDict | formatter/clinical_formatter_v2.py:268-278 | The output has exactly the nine keys patient_voice … metadata, in order. |
| ClinicalFormatter.ForClinician | formatter/clinical_formatter_v2.py:176-278 | A successful call has at least one emotion line, one to three metaphor lines and one to four risk lines. |
| ClinicalFormatter.ForClinicianFails | formatter/clinical_formatter_v2.py:220-227 | The call fails exactly when a formatter raises, with the emotion formatter's error first, then the metaphor's, then the risk's. |
| ClinicalFormatter.ForClinicianShape | formatter/clinical_formatter_v2.py:240-266 | On success the notes are never empty, and the summary is either the fallback sentence or single-spaced text. |
| ClinicalFormatter.ViewFields | formatter/clinical_formatter_v2.py:220-278 | A successful view holds the emotion, metaphor and risk formatters' own lines, the summary's uncertainties as a list, and the result's patient voice, reasoning and metadata (each with its default). |
| ClinicalFormatter.ViewSummaryAndNotes | formatter/clinical_formatter_v2.py:180-266 | The view's summary and notes come from the result's "summary" alone. |
| ClinicalFormatter.ForClinicianOfEmpty | formatter/clinical_formatter_v2.py:176-278 | An empty result still formats: the default emotion and metaphor lines, one risk line, the fallback summary, no uncertainties and the default notes. |
| LegacyFormatter.EmotionLabel | formatter/clinical_formatter.py:18-25 | The label lookup raises TypeError exactly for an unhashable emotion. |
| LegacyFormatter.LabelTable | formatter/clinical_formatter.py:18-25 | The four mapped emotions get their clinical label, and any other string gets "emotional distress". |
| LegacyFormatter.LineOpens | formatter/clinical_formatter.py:26 | A line opens with the dash, then the level's first letter. |
| LegacyFormatter.EmotionLine | formatter/clinical_formatter.py:9-26 | One entry yields at most one line. |
| LegacyFormatter.EmotionLines | formatter/clinical_formatter.py:8-26 | The loop yields at most one line per entry. |
| LegacyFormatter.EmotionClinical | formatter/clinical_formatter.py:3-28 | Falsy input gives the default line; a successful call always returns at least one line. |
| LegacyFormatter.FailureSticks | formatter/clinical_formatter.py:8-26 | Once an entry has raised, the loop's outcome is that error, whatever follows. |
| LegacyFormatter.EntryLine | formatter/clinical_formatter.py:9-26 | One pass of the loop body computes `EmotionLine`. |
| LegacyFormatter.EmotionToClinical | formatter/clinical_formatter.py:3-28 | The appending loop computes `EmotionClinical`. |
| LegacyFormatter.LinesShown | formatter/clinical_formatter.py:8-26 | Over well-formed entries the loop never raises and yields one line per entry that reaches 0.4, in order. |
| LegacyFormatter.LineOfWellFormed | formatter/clinical_formatter.py:9-26 | A well-formed entry gives "Marked" from 0.7, "Moderate" from 0.4, and no line below that. |
| LegacyFormatter.DefaultIffNoneShown | formatter/clinical_formatter.py:4-28 | With well-formed entries, the default line comes back exactly when no entry reaches 0.4. |
| LegacyFormatter.Cleaned | formatter/clinical_formatter.py:61-98 | Falsy text cleans to ""; truthy text that is not a string raises TypeError. |
| LegacyFormatter.CleanedText | formatter/clinical_formatter.py:66-98 | Cleaned text has no whitespace at either end. |
| LegacyFormatter.CleanSummary | formatter/clinical_formatter.py:61-98 | The step-by-step rewriting computes `Cleaned`. |
| LegacyFormatter.CleanedSingleSpaced | formatter/clinical_formatter.py:95-98 | Cleaned text is single-spaced. |
| LegacyFormatter.MetaphorLines | formatter/clinical_formatter.py:37-41 | There is always exactly one metaphor line. |
| LegacyFormatter.RiskLine | formatter/clinical_formatter.py:44-46 | The risk line exists exactly when the risk is a dict with a string level, and it is the capitalised level followed by " clinical urgency". |
| LegacyFormatter.ForClinician | formatter/clinical_formatter.py:31-59 | On success the uncertainties and notes are the fixed two-item lists, with one metaphor line, one risk line and at least one emotion line. |
| LegacyFormatter.RequiredKeys | formatter/clinical_formatter.py:33-48 | Without "patient_voice" the call raises KeyError. Without "risk" it raises KeyError once the emotion lines have succeeded. A successful call needs "patient_voice", "risk" and "summary". |
| LegacyFormatter.ForClinicianFields | formatter/clinical_formatter.py:31-59 | On success the patient voice is the result's own, the emotion lines are the emotion formatter's, the risk line is built from the level and the summary is the cleaned text. The metaphor line is the default for "neutral" or None, and `- ` followed by the metaphor's `str()` otherwise. |
| Dashboard.Cut | dashboard_models.py:300-302 | In a time-ordered list, the encounters before the cut are not later than t, and those after it are later. |
| Dashboard.InsertByTime | dashboard_models.py:300-302 | Appending and then stably sorting by time keeps the list in time order and adds exactly the one encounter. |
| Dashboard.SplicedByTime | dashboard_models.py:300-302 | Splicing at the cut keeps a time-ordered list in order and adds exactly the one encounter. |
| Dashboard.LevelOfLine | dashboard_models.py:276-284 | Read off the upper-cased line: "high" when it says HIGH, else "moderate" when it says MODERATE, else "low" when it says LOW, else "unknown". |
| Dashboard.RiskOf | dashboard_models.py:266-287 | Any risk that is neither a dict nor a non-empty list gives "unknown" with no flags. |
| Dashboard.RiskOfDict | dashboard_models.py:271-273 | For a dict risk the level is the first truthy of "risk_level" and "level", else "unknown". |
| Dashboard.RiskOfList | dashboard_models.py:274-285 | For a non-empty list risk, the level follows the first line with the same precedence: HIGH, then MODERATE, then LOW, else "unknown". |
| Dashboard.RiskOfFlags | dashboard_models.py:273-285 | The flags are the uncertainties list, [] when falsy, and a number or boolean raises TypeError. |
| Dashboard.CutByRecency | dashboard_models.py:210-214 | In a most-recent-first list, the patients before the cut are at least as recent as the key, and those after it are less recent. |
| Dashboard.InsertByRecency | dashboard_models.py:210-214 | One step of stable descending insertion keeps the order and adds exactly the one patient. |
| Dashboard.PlacedByRecency | dashboard_models.py:210-214 | Placing at the cut keeps the most-recent-first order and adds exactly the one patient. |
| Dashboard.ByRecency | dashboard_models.py:210-214 | The sort is ordered most recent first and is a permutation of its input. |
| Dashboard.StripOr | dashboard_models.py:238 | The display name is never empty: it is the stripped name, or the fallback when that is empty. |
| Dashboard.DashboardStorage.constructor | dashboard_models.py:98-102 | A new store is valid and holds no patients. |
| Dashboard.DashboardStorage.ListPatients | dashboard_models.py:207-214 | Every patient appears once, most recent encounter first, with encounter-less patients last. |
| Dashboard.DashboardStorage.GetPatient | dashboard_models.py:216-218 | An unknown id gives None; a known one gives that patient. |
| Dashboard.DashboardStorage.CreatePatient | dashboard_models.py:220-246 | The patient is stored under the given id with the stripped-or-fallback name and no encounters; a fresh id adds exactly one patient and goes last in the order; the store stays valid. |
| Dashboard.DashboardStorage.AddEncounter | dashboard_models.py:248-304 | An unknown patient raises ValueError, and a risk that cannot be read raises its error; in both cases nothing changes. A known patient whose risk reads always succeeds: the encounter carries the patient's id, the doctor's id and the risk read, joins that patient's list in time order, and nothing else changes. |

## Left out

- Case mapping is ASCII only. Non-ASCII letters are never upper- or lower-cased.
- `str()` and `repr()` of numbers, lists and dicts, `float()` of a string, `json.loads`, `json.dumps` and `format(x, ".2f")` are fields of an abstract `Runtime` parameter. Their exact text is not modelled.
- Python's regex engine is not modelled. Only the four patterns the code uses are written out as string functions: the escaped case-insensitive literal, `\s+`, `^#+\s*` and a `{2,}` class run.
- Prompts and the remote model calls are not modelled. Every engine reply is a parameter, and `generate`'s outcome is an `Attempt` value.
- Model selection is not modelled, and neither are `config/gemini_config.py`, `llm_config.py`, authentication, the UI (`app.py`, `app_v2.py`) or the legacy pipeline (`orchestrator.py`, the models and training scripts). None of them holds logic of the core.
- The progress message `run_clarify` prints to the console (orchestrator_v2.py:151) is not modelled: console output has no effect on the result.
- `collaborate` and the unused `collaboration_context` are not modelled: the first is an engine call, and the second is never read.
- The what-if agent is the `compare` parameter of `RunWhatIf`, because it is only prompt text around engine calls.
- The `get_orchestrator` singleton and the module-level wrappers are not modelled. They only cache and forward.
- Numbers are `real`. There is no float rounding, NaN or infinity, and int and float are not told apart. Intensities and urgency are only compared with 0.4, 0.7 and 0.8.
- Nested dicts are values, so aliasing between the risk dict, the synthesis context and the result is not captured. Only the result dict and the risk dict are objects changed in place. `validate_output` also edits the summary dict and its "structured" dict in place (safety_guardrails.py:129-139); `Guardrails.SanitizeSummaryDict` does these edits on a local copy and stores it back into the result. That gives the same result, because the summary dict is built fresh on every synthesis call (synthesis_agent_v2.py:75-84), so nothing else holds it.
- The ontology is a parameter of the search object and of each agent's retrieval. `Ontology.MedicalOntology` is the literal table.
- The current formatter's three `try`/`except Exception` blocks are not modelled: lines 184-218 (with the nested bare `except:` at 216), 248-254 and 257-266 of formatter/clinical_formatter_v2.py. Nothing inside their `try` parts can raise on the values the model admits, so the `except` branches are never taken.
- Dashboard: the JSON file persistence, `uuid4` and `datetime.utcnow` are not modelled. Ids and timestamps are parameters, and timestamps are `nat` ticks. Tick 0 stands for `datetime.min`, the sort key of a patient with no encounters, so a new encounter is always later than 0.
- Dashboard: the doctor record is reduced to its fixed id.
- Dashboard: a patient is a value, so the aliasing between `get_patient`'s result and the stored patient is not captured.
- The current formatter returns a `ClinicianView` record rather than a dict. `ClinicalFormatter.ViewDict` gives its nine-key dict form.
- RiskOverride.FiredFor: the narrative is a string, so the `patient_text or ""` case of None is not modelled.
- LegacyFormatter.MetaphorLines: its own contract states only that there is one line; the line itself, for every metaphor, is stated by `ForClinicianFields`.
- ClinicalFormatter.EmotionLinesKept: proved only for entries whose intensity is a number. A boolean intensity formats too, but that case is stated only by the function itself.
- Orchestrator.AgenticOrchestrator.RunWhatIf: the comparison result is opaque, since the what-if agent is a parameter.
