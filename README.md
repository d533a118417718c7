# Hiero custom-keyword resolver, modelled in Dafny

This project models the Shotgun pipeline toolkit hook `HieroResolveCustomStrings`.
When Hiero exports, the templating engine calls this hook to turn a custom template
keyword into a string for one export task. The hook knows three keywords:

- `{resolution}` gives the clip's pixel size as `"<width>x<height>"`. The size comes
  from the sequence format, unless the export preset has an active `"reformat"`
  property. A reformat property is active when its `to_type` is not the literal
  string `"None"`.
- `{stype}` gives nothing. The code returns a name it never bound.
- `{client}` gives the `sg_client` field of the project record that the production
  database returns.

Any other keyword raises an error.

The model is pure, like the hook: datatypes, functions and lemmas, with no state.

- `decimal.dfy` (module `Decimal`) renders a natural number in decimal, the way `%s`
  renders a non-negative `int`. `ParseDigits` reads a numeral back, and the lemmas
  there prove that the two are inverse on canonical numerals.
- `custom_strings.dfy` (module `CustomStrings`) holds the hook itself.
  - `Task` holds what the hook reads from the host task: the sequence width and
    height, and the optional reformat record (`to_type`, `width`, `height`).
  - `Dimensions` is the selection rule.
  - `FormatResolution` is the `"%sx%s"` formatting.
  - `ClipResolution` is the `{resolution}` value.
  - `ClientName` is the `{client}` field extraction.
  - `Execute` is the keyword dispatch.

  `ParseResolution` is an independent reader of resolution strings. The formatting
  is proved against it, in both directions.

The hook raises Python exceptions. The model returns a `Result` with an `Error` instead:

- `UnsupportedToken(keyword)` stands for the generic `RuntimeError` raised for an unknown
  keyword. It is a constructor of its own and carries the keyword.
- `UndefinedResult` stands for the `NameError` that `{stype}` raises.
- `ProjectNotFound` stands for the `TypeError` raised when the query returns `None`
  and the code subscripts it.
- `FieldMissing("sg_client")` stands for the `KeyError` raised when the record lacks
  the field. The missing project and the missing field stay two separate constructors.

## Model

| member | source | states |
|---|---|---|
| `CustomStrings.Execute` | Shotgun_Tools/integration/hooks/hiero_resolve_custom_strings.py:16-37 | An unsupported-token error comes back exactly when the keyword is none of the three literals, and then it carries that keyword. `{resolution}` succeeds with a string that reads back as the task's effective dimensions. `{stype}` fails with the undefined-result error. `{client}` gives whatever the client-name extraction gives for the lookup. |
| `CustomStrings.TokensDistinct` | Shotgun_Tools/integration/hooks/hiero_resolve_custom_strings.py:16-18 | The three keyword literals are pairwise distinct, so each keyword selects at most one branch. |
| `CustomStrings.ExecuteResolution` | Shotgun_Tools/integration/hooks/hiero_resolve_custom_strings.py:27-28 | `{resolution}` returns exactly the resolution rule's value, whatever the project lookup holds. |
| `CustomStrings.ExecuteClient` | Shotgun_Tools/integration/hooks/hiero_resolve_custom_strings.py:31-32 | `{client}` succeeds if and only if the lookup found a project record with an `sg_client` field. On success the value is that field. If no project was found, the result is the project-not-found error. |
| `CustomStrings.ClientName` | Shotgun_Tools/integration/hooks/hiero_resolve_custom_strings.py:68-72 | Success if and only if a record came back and it has `sg_client`. On success the value is that field. No record gives project-not-found. A record without the field gives field-missing. |
| `CustomStrings.Dimensions` | Shotgun_Tools/integration/hooks/hiero_resolve_custom_strings.py:45-54 | The reported size is the sequence size or the reformat entry's size, taken as a pair, never one dimension from each. An active reformat entry (`to_type` is not `"None"`) gives the reformat size. Otherwise the sequence size is used. |
| `CustomStrings.FormatResolution` | Shotgun_Tools/integration/hooks/hiero_resolve_custom_strings.py:56 | The output is the width's decimal text, then a single `x`, then the height's decimal text. Every other character is a digit, and the length is exactly the sum of the parts, so there is no padding. |
| `CustomStrings.ResolutionFormatIff` | Shotgun_Tools/integration/hooks/hiero_resolve_custom_strings.py:56 | A string reads back as a pair (w, h) if and only if it is the formatting of (w, h). This gives the round trip and uniqueness. |
| `CustomStrings.ClipResolution` | Shotgun_Tools/integration/hooks/hiero_resolve_custom_strings.py:40-56 | The resolution string reads back as exactly the task's effective dimensions. |
| `CustomStrings.NoReformatUsesSequence` | Shotgun_Tools/integration/hooks/hiero_resolve_custom_strings.py:45-56 | With no reformat property, the result is the sequence width's digits, `"x"`, and the sequence height's digits. |
| `CustomStrings.ReformatOverrides` | Shotgun_Tools/integration/hooks/hiero_resolve_custom_strings.py:50-56 | With an active reformat entry, the result is the reformat width, `"x"`, and the reformat height. Changing the sequence format does not change it. |
| `CustomStrings.NoneReformatIgnored` | Shotgun_Tools/integration/hooks/hiero_resolve_custom_strings.py:52-56 | A reformat entry whose `to_type` is `"None"` is ignored. The sequence size is used, whatever width and height the entry holds. |
| `CustomStrings.ClipResolutionDetermined` | Shotgun_Tools/integration/hooks/hiero_resolve_custom_strings.py:47-56 | Two tasks get the same resolution string if and only if their effective dimensions are equal. |
| `CustomStrings.SequenceExample` | Shotgun_Tools/integration/hooks/hiero_resolve_custom_strings.py:45-56 | A 1920 by 1080 sequence with no reformat gives `"1920x1080"`. |
| `CustomStrings.ReformatExample` | Shotgun_Tools/integration/hooks/hiero_resolve_custom_strings.py:50-56 | A 1920 by 1080 sequence with an active 1280 by 720 reformat gives `"1280x720"`. |
| `Decimal.NatToString` | Shotgun_Tools/integration/hooks/hiero_resolve_custom_strings.py:56 | `%s` of a natural number gives a canonical numeral: non-empty, digits only, and no leading zero. It is `"0"` exactly for zero. |
| `Decimal.ParseNatToString` | Shotgun_Tools/integration/hooks/hiero_resolve_custom_strings.py:56 | Reading back a rendered number gives the number. |
| `Decimal.NatToStringParse` | Shotgun_Tools/integration/hooks/hiero_resolve_custom_strings.py:56 | Every canonical numeral is the rendering of the number it denotes. |
| `Decimal.NatToStringInjective` | Shotgun_Tools/integration/hooks/hiero_resolve_custom_strings.py:56 | Distinct numbers render differently. |

## Left out

- `Shotgun_Tools/integration/core/hooks/context_change.py` is not part of this model. It only reassigns menu shortcuts through the host application's UI modules, which are foreign calls.
- `{stype}` filter construction (lines 61-64): the filter is built and never used. The branch ends in a `NameError`, and the model keeps only that error.
- The `find_one` project query (line 71) is network I/O. Its answer is a parameter (`lookup`), so the project filter built from the current context is not modelled.
- The `_sg_lookup_cache` dictionary (line 21) is never read or written.
- The `log_debug` calls (lines 26 and 36) are logging only.
- Python's `%s` of arbitrary objects: width and height are natural numbers rendered in decimal. Negative, float or string values from the host are not modelled.
- The reformat property is modelled as a record that always has `to_type`, `width` and `height`. The `KeyError` for a reformat dictionary that lacks one of them is not modelled.
- `sg_client` values are modelled as strings. The production database may return other field types, which the hook passes through unchanged.
- The text of the `RuntimeError` message is not modelled. The error carries only the keyword.
- `Reformat.toType` is a string. A `to_type` that is not a string (a Python `None`, say) cannot be expressed. In the source such a value compares unequal to `"None"` and so switches the override on.
