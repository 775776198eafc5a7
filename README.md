# vJoy binding: packet-type decoding and library location

A model of the pure logic in `vjoy/vjoy_interface.py`, the ctypes binding
through which Joystick Gremlin drives the vJoy virtual-joystick driver:

- the `VJoyState` enumeration and its five declared codes;
- the `FFBPType` enumeration of force-feedback report types, the report code
  declared for each, and `FFBPType.from_ctype`, which turns a raw code into a
  packet type or raises a `GremlinError` naming the value;
- the rule that chooses which `vJoyInterface.dll` to load: the file in the
  working directory first, then the one beside the module, else an error.

Files: `wrappers.dfy` (the `Result` type that stands for "returns or
raises"), `decimal.dfy` (Python's `{:d}` integer formatting used in the error
message, with a parser that proves the rendering injective) and
`vjoy_interface.dfy` (the model proper).

`FromCtype` is stated against `Code`, the table of declared values: a
decoded type's code is the input, and a failure means no type declares the
input. The lemmas then prove that the two tables agree in both directions,
that decoding is injective, that exactly sixteen codes are accepted, that the
write and feature codes lie in disjoint ranges, and that the error message
determines the value it reports.

`VJoyState` declares `Unknown = 4`, but the source has no function that maps
a raw status code to a state, so no such conversion (and no catch-all to
`Unknown`) is modelled; only the declared codes are.

## Model

| member | source | states |
|---|---|---|
| `VJoyInterface.StateCode` | vjoy/vjoy_interface.py:30-34 | each state's declared code lies in 0..4, and 4 is the code of `Unknown` and of no other state |
| `VJoyInterface.StateCodeInjective` | vjoy/vjoy_interface.py:30-34 | the five state codes are pairwise distinct |
| `VJoyInterface.Code` | vjoy/vjoy_interface.py:41-59 | the thirteen write reports carry write codes (0x01..0x0E without 0x09) and the three feature reports carry feature codes (0x11..0x13) |
| `VJoyInterface.CodeInjective` | vjoy/vjoy_interface.py:42-59 | no two packet types are declared with the same code |
| `VJoyInterface.AllTypesComplete` | vjoy/vjoy_interface.py:37-59 | the list of sixteen packet types contains every type, once each |
| `VJoyInterface.FromCtype` | vjoy/vjoy_interface.py:61-108 | a successful decode returns a type whose declared code is the input; a failure carries the input value and happens only when no type declares that value |
| `VJoyInterface.FromCtypeOfCode` | vjoy/vjoy_interface.py:75-106 | decoding any type's declared code returns that type |
| `VJoyInterface.CodeOfFromCtype` | vjoy/vjoy_interface.py:75-106 | for every accepted value, the decoded type's code is that value |
| `VJoyInterface.FromCtypeInjective` | vjoy/vjoy_interface.py:75-108 | two integers that decode to the same result, a type or an error, are equal |
| `VJoyInterface.AcceptedCodesExact` | vjoy/vjoy_interface.py:75-108 | a value is accepted exactly when it is one of 0x01..0x08, 0x0A..0x0E, 0x11..0x13, sixteen values in all |
| `VJoyInterface.AcceptedCodesDeclared` | vjoy/vjoy_interface.py:42-106 | the accepted values are exactly the declared codes of the sixteen types: none is missing from the decoder and none is added |
| `VJoyInterface.CodeRangesDisjoint` | vjoy/vjoy_interface.py:41-59 | an accepted value is a write code or a feature code, and no value is both |
| `VJoyInterface.FromCtypeRejects` | vjoy/vjoy_interface.py:107-108 | 0x00, 0x09, 0x0F, 0x10, every value from 0x14 up and every negative value fail with an error carrying that value |
| `VJoyInterface.Message` | vjoy/vjoy_interface.py:108 | the text is "Invalid ffb type value " followed by the `{:d}` rendering of the carried value, from which that value parses back |
| `VJoyInterface.MessageIdentifiesValue` | vjoy/vjoy_interface.py:108 | two errors with the same message carry the same value |
| `VJoyInterface.FromCtypeExamples` | vjoy/vjoy_interface.py:93-108 | 0x0B decodes to `PT_BLKFRREP`, 0x03+0x10 to `PT_POOLREP`, and 0x09 fails with "Invalid ffb type value 9" |
| `Decimal.NatToDecimal` | vjoy/vjoy_interface.py:108 | the decimal rendering of a natural number is a non-empty digit string with no leading zero unless the number is 0 |
| `Decimal.IntToDecimal` | vjoy/vjoy_interface.py:108 | `{:d}` starts with '-' exactly for negative values, is otherwise made of digits, and has no leading zero (the value 0 is "0") |
| `Decimal.ParseNatOfNatToDecimal` | vjoy/vjoy_interface.py:108 | parsing the rendering of a natural number gives the number back |
| `Decimal.ParseIntOfIntToDecimal` | vjoy/vjoy_interface.py:108 | parsing the `{:d}` rendering of any integer gives the integer back |
| `Decimal.IntToDecimalInjective` | vjoy/vjoy_interface.py:108 | distinct integers are rendered as distinct strings |
| `VJoyInterface.DevPath` | vjoy/vjoy_interface.py:131 | the development path is the module directory followed by `vJoyInterface.dll`, with exactly one separator between them, a backslash inserted only when the directory lacks a trailing separator; it is the bare file name exactly when the directory is empty |
| `VJoyInterface.SelectDllPath` | vjoy/vjoy_interface.py:131-137 | a chosen path is a file that exists and is one of the two candidates; the choice fails exactly when neither candidate exists |
| `VJoyInterface.LoadErrorMessage` | vjoy/vjoy_interface.py:137 | the library-location error text (the body is "Unable to locate vjoy dll") is non-empty and differs from every decoder error message, so the two errors cannot be confused |
| `VJoyInterface.WorkingDirectoryPreferred` | vjoy/vjoy_interface.py:132-133 | when the working-directory file exists it is chosen, whether or not the development file exists |
| `VJoyInterface.DevPathFallback` | vjoy/vjoy_interface.py:134-135 | without a working-directory file, an existing development file is chosen |

## Left out

- `VJoyInterface.initialize` and the table of DLL signatures (argument and return types set through `setattr`): ctypes binding with no behaviour of its own beyond the foreign library.
- Every DLL entry point (SetAxis, AcquireVJD, GetVJDStatus, UpdateVJD and the rest): their results are defined by the native driver.
- `set_ffb_event_callback` and the `C_FFB_CALLBACK` trampoline: registration of a callback into foreign code, invoked on a native thread.
- The `_FFB_DATA` structure: a ctypes layout whose `data` field is a borrowed `c_char_p`, with no encoding or decoding in the source.
- `ctypes.cdll.LoadLibrary` and `os.path.isfile`: loader and filesystem I/O. The existence test is the parameter `isFile` of `SelectDllPath`, and the module's own directory (`os.path.dirname(__file__)`) is the parameter `moduleDir`.
- DevPath: follows Windows `os.path.join`, which agrees with it for ordinary and UNC-share directories; for a bare drive such as `C:` that function gives `C:vJoyInterface.dll` where the model inserts a backslash, and the POSIX variant of `os.path.join` is not modelled.
- FromCtype: takes an `int`; Python would also accept `True`, `1.0` and other objects equal to a code, and a non-integer that matches no code would make the `{:d}` formatting itself raise instead of `GremlinError`; likewise, from Python 3.11 on, `{:d}` raises `ValueError` for an integer of more than 4300 digits, which the model renders like any other (report codes from the driver are 32-bit, so this cannot arise from it).
- The `GremlinError` exception class itself is not part of this model. The decoder's error is represented by the offending value and its message text (`Message`); the library-location error by `UnableToLocateDll` and its text "Unable to locate vjoy dll" (`LoadErrorMessage`).
