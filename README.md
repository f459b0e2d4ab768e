# HbA1c classifier, modelled in Dafny

This project models `hba1c_classifier`, a stateless HTTP function. It reads an
HbA1c percentage from the JSON body or from the query string. It checks that
the value is present and that `float()` accepts it. It then classifies the
number by the ADA 2024 cutoffs (normal below 5.7, prediabetes from 5.7 up to
but not including 6.5, diabetes from 6.5). The answer is a (payload, status
code, headers) triple.

Files and modules:

- `pyvalues.dfy` (`PyValues`) holds the Python values the handler sees. These are
  parsed JSON values, Python truthiness and the `float` type. A float is a
  finite real, one of the two infinities, or NaN. The module also models
  `float()` itself, with its three outcomes: a value, a TypeError/ValueError, or
  some other exception.
- `queryargs.dfy` (`QueryArgs`) models the query parameters as an ordered list of
  pairs. `Get` returns the first value for a key, as the framework's multi-valued
  dictionary does.
- `classification.dfy` (`Classification`) holds the three bands, their names and
  labels, and the if/elif/else on the converted value.
- `handler.dfy` (`Handler`) holds input resolution, the two validation checks,
  the catch-all, and the response shapes.

Modelling decisions:

- `request.get_json(silent=True)` is taken as an already-parsed `Json` value.
  `Null` stands for a missing body, a body that is not JSON, and the literal
  `null`. All three are falsy, so the handler treats them the same way.
- `float()` of a string is the parameter `parseStr: string -> Option<Float>`.
  Python's grammar for numeric strings is not re-implemented.
- `float()` of every other JSON value is modelled exactly:
  - a boolean gives 1.0 or 0.0;
  - a list or dict raises TypeError;
  - a JSON float is kept as it is;
  - an integer of magnitude at least 2^1024 - 2^970 raises OverflowError.
    That exception is not a TypeError or ValueError, so it reaches the
    catch-all and gives 500.
- The cutoffs 5.7 and 6.5 are exact reals. For values that are doubles,
  comparing with the real 5.7 gives the same answer as comparing with the
  double nearest 5.7. No double lies strictly between the two.

The handler's docstring (main.py:12-15) says only that it expects `hba1c` in a
JSON body, with the query parameter as a fallback. Where the code does more
than that, the model follows the code:

- A dict body whose `hba1c` is `null` does not fall back to the query string. It
  gives 400 "required" (`Handler.NullShadowsQuery`).
- A truthy body that is not a dict (a non-empty list, a non-zero number, a
  non-empty string, `true`) gives 500. The falsy ones give a fallback to the
  query string instead (`Handler.NonDictBodyIsInternalError`,
  `Handler.FalsyBodyIsNoBody`).
- A boolean value is coerced by `float()` rather than rejected
  (`Handler.BooleanIsCoerced`).
- A NaN fails both comparisons and is classified as diabetes.

## Model

| member | source | states |
|---|---|---|
| PyValues.LessOrAtLeast | 504_serverless_functions/gcp/main.py:42-50 | a float is below a cutoff or at least it, exactly one of the two, unless it is NaN, which is neither |
| PyValues.ComparisonsMonotone | 504_serverless_functions/gcp/main.py:42-50 | "below the cutoff" and "at least the cutoff" are monotone in the order of the non-NaN doubles |
| PyValues.ToFloat | 504_serverless_functions/gcp/main.py:32-34 | `float()` raises something other than TypeError/ValueError exactly for an int beyond the double range; None, lists and dicts are rejected; a string is rejected exactly when its parse fails and otherwise gives the parsed value; a JSON float is kept; an in-range int gives its value; a boolean gives 1.0 or 0.0; a NaN can only come from a float or a string |
| QueryArgs.Get | 504_serverless_functions/gcp/main.py:19-21 | `args.get(key)` is None exactly when no parameter has the key, and otherwise is the value of a parameter with that key that no earlier parameter with the key precedes |
| QueryArgs.GetIgnoresOtherKeys | 504_serverless_functions/gcp/main.py:21 | the first occurrence of the key wins whatever comes before (under other keys) or after it |
| Classification.Classify | 504_serverless_functions/gcp/main.py:41-50 | normal iff below 5.7; prediabetes iff at least 5.7 and below 6.5; diabetes iff at least 6.5 or NaN |
| Classification.FiniteBands | 504_serverless_functions/gcp/main.py:42-50 | for a finite value the bands are the half-open intervals (-inf,5.7), [5.7,6.5), [6.5,+inf) |
| Classification.BoundariesExact | 504_serverless_functions/gcp/main.py:42-50 | 5.7 is prediabetes, 6.5 is diabetes, 5.6999 is normal, 6.4999 is prediabetes |
| Classification.NonFiniteValues | 504_serverless_functions/gcp/main.py:42-50 | -inf is normal; +inf and NaN fall through to diabetes |
| Classification.EveryStatusOccurs | 504_serverless_functions/gcp/main.py:42-50 | no band is empty: each status is the classification of some finite value |
| Classification.Monotone | 504_serverless_functions/gcp/main.py:42-50 | if a <= b (neither NaN) then the severity of a is at most that of b |
| Classification.RankCountsCutoffsReached | 504_serverless_functions/gcp/main.py:41-50 | the severity of a non-NaN value equals the number of ADA cutoffs (5.7, 6.5) it has reached |
| Classification.NamesAndLabelsDistinct | 504_serverless_functions/gcp/main.py:43-50 | status names and category labels are each distinct per status, so a label identifies its status |
| Handler.Resolve | 504_serverless_functions/gcp/main.py:18-21 | a dict body with the key supplies its value, even null; a falsy body or a dict without the key defers to the first query parameter, and gives None exactly when the query lacks it; any other body fails with the AttributeError text |
| Handler.Handle | 504_serverless_functions/gcp/main.py:16-66 | every answer carries `Content-Type: application/json`; 200/400/500 go with the classification/client-error/server-error payloads; a classification's status and category are those of the echoed number's band; a server error is tagged `internal_server_error` |
| Handler.StatusCodes | 504_serverless_functions/gcp/main.py:24-66 | the only codes are 200, 400 and 500, and each occurs for some request |
| Handler.BodyShadowsQuery | 504_serverless_functions/gcp/main.py:18-21 | when the body is a dict with the key, the query string does not affect the answer |
| Handler.QueryFallback | 504_serverless_functions/gcp/main.py:19-21 | without the key in the body, the first query value is converted, classified and echoed with 200 |
| Handler.NullShadowsQuery | 504_serverless_functions/gcp/main.py:21-29 | a body key holding null gives 400 "required" whatever the query says |
| Handler.FalsyBodyIsNoBody | 504_serverless_functions/gcp/main.py:18 | a falsy body behaves exactly like no body |
| Handler.NonDictBodyIsInternalError | 504_serverless_functions/gcp/main.py:18-21 | a truthy non-dict body gives 500 with the AttributeError text |
| Handler.RequiredExactlyWhenAbsent | 504_serverless_functions/gcp/main.py:24-29 | the answer is exactly 400 "Field 'hba1c' is required." iff the lookup gives None, and then it does not depend on `float()` |
| Handler.MissingEverywhere | 504_serverless_functions/gcp/main.py:18-29 | with the key in neither the body nor the query, the answer is 400 "required" |
| Handler.NotANumberExactlyWhenRejected | 504_serverless_functions/gcp/main.py:31-39 | the answer is exactly 400 "'hba1c' must be a number." iff a present value was rejected by `float()` with TypeError or ValueError |
| Handler.ContainerIsNotANumber | 504_serverless_functions/gcp/main.py:32-39 | a list or dict under the key gives 400 "must be a number" |
| Handler.BooleanIsCoerced | 504_serverless_functions/gcp/main.py:33-58 | `true` under the key is converted to 1.0 and classified normal with 200 |
| Handler.HugeIntegerIsInternalError | 504_serverless_functions/gcp/main.py:33-66 | an int beyond the double range escapes the inner handler and gives 500 |
| Handler.IntegerIsClassified | 504_serverless_functions/gcp/main.py:33-58 | an int within the double range is converted to its value, classified and echoed with 200 |
| Handler.SuccessExactlyWhenConverted | 504_serverless_functions/gcp/main.py:32-58 | 200 iff a value was found and converted, and the payload echoes the converted number |
| Handler.InternalErrorExactlyWhenRaised | 504_serverless_functions/gcp/main.py:32-66 | 500 iff `data.get` raised or `float()` raised something other than TypeError/ValueError |
| Handler.Examples | 504_serverless_functions/gcp/main.py:16-58 | 5.2 in the body is normal, 6.5 diabetes, "6.0" in the query prediabetes; an empty request is 400 "required"; "high" is 400 "must be a number"; "6.0" in the body is prediabetes; the int 7 in the body is diabetes and echoed as 7.0, whatever the query says |

## Left out

- Logging of the exception (main.py:5-7, 62). It is an output sink with no effect on the answer.
- The hosting framework's decorator, and its parsing of the body and the query string. The body is an already-parsed JSON value, and the query is a list of decoded pairs.
- `json.dumps`. Responses are datatypes, not serialised text.
- Python's grammar for numeric strings in `float()`. It is the parameter `parseStr`.
- PyValues.ToFloat: an int between 2^53 and the overflow bound is taken as its exact value rather than the nearest double. The band is unaffected, since rounding keeps such a value far above 6.5 or far below 5.7. Only the echoed number differs.
- The sign of a zero. -0.0 and 0.0 are the same `Finite(0.0)`, so an echoed -0.0 loses its sign.
- Exceptions raised while the platform parses the body, other than the ValueError that `silent=True` swallows. Examples are a RecursionError on a deeply nested JSON body, or a rejected over-long body. These also run inside the handler's `try` (main.py:16-18) and reach the catch-all as a 500. They are left out together with the parsing. Inside the handler itself, the model covers the two exceptions that can arise: the AttributeError from `data.get` and the OverflowError from `float()`.
- Concurrency and scaling. They belong to the platform, and the handler holds no state.
