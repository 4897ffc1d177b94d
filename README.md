# A verified model of the `debug.h` value printer

`debug.h` is a header-only debug printer for competitive programming. The
`debug(e1, ..., ek)` macro writes one line to a diagnostic stream. The line
holds the source text of the expressions in brackets, then each value rendered
as text. The printer picks the format from the value's C++ type at compile
time:

- bools as `True`/`False`;
- chars in single quotes, with seven characters escaped;
- signed and unsigned chars as numbers;
- strings in double quotes;
- vectors, deques and lists in `[...]`; sets in `{...}`; maps as `{k:v,...}`;
- pairs and tuples in `<...>`;
- queues and priority queues as the container they wrap;
- `std::vector<bool>` as a run of digits;
- `std::array` in `[...]`.

Everything else goes to the stream's own `<<`.

The model has four modules:

- `TextUtil` (`text_util.dfy`): the decimal form the stream gives an integer, with a parser that reads it back. It also has joining with a separator and repetition.
- `DebugFormat` (`debug_format.dfy`): the `Value` datatype has one constructor per type category the printer recognises. It stands in for the compile-time dispatch. `Render(v)` is the text the printer writes for `v`. `DebugLine(src, args)` is the text one `debug` call writes.
- `DebugProperties` (`debug_properties.dfy`): the rendering rules, proved about `Render` and `DebugLine`.
- `DebugPrinter` (`debug_printer.dfy`): a `Printer` class whose `out: string` field is the stream. There is one method per `print_impl` overload and per `PrinterWrapper` specialisation. Each appends piece by piece, with the source's loops, and is proved to leave `out == old(out) + Render(v)`.

The model follows the code as written, including two quirks:

- **Strings are not escaped** (debug.h:124). The string `a"b` is written as `"a"b"`, not `"a\"b"`.
- **`std::array` repeats element 1** (debug.h:118). The loop prints `x[1]` at every index after 0, so the array `{1, 2, 3}` is written `[1,2,2]`. `ArrayRepeatsSecond` states this for every array, and `ArrayExample` shows that instance.

## Model

| member | source | states |
|---|---|---|
| `DebugPrinter.Printer.Print` | debug.h:78 | dispatching on the value's category appends exactly `Render(v)` to the stream and changes nothing else |
| `DebugPrinter.Printer.PrintBool` | debug.h:80 | appends the word for the bool |
| `DebugPrinter.Printer.PrintChar` | debug.h:82-100 | the if-chain appends the quoted char or its escape, as `Render` gives it |
| `DebugPrinter.Printer.PrintSignedChar` | debug.h:102 | a signed char is widened and appended as the integer its bit pattern holds |
| `DebugPrinter.Printer.PrintUnsignedChar` | debug.h:104 | an unsigned char is widened and appended as its value 0..255 |
| `DebugPrinter.Printer.PrintInt` | debug.h:74-76 | the fallback appends the integer's decimal form |
| `DebugPrinter.Printer.PrintBoolVector` | debug.h:106-110 | the loop over the bits appends one digit per element |
| `DebugPrinter.Printer.PrintArray` | debug.h:112-121 | the index loop appends `[`, element 0, one `,x[1]` per later index, `]` |
| `DebugPrinter.Printer.PrintStr` | debug.h:123-125 | appends the characters between double quotes |
| `DebugPrinter.Printer.PrintItems` | debug.h:130-136 | the iterator loop appends the first element, then `,` and each later element |
| `DebugPrinter.Printer.PrintLine` | debug.h:127-139 | a vector, deque or list is appended between `[` and `]` |
| `DebugPrinter.Printer.PrintAdapter` | debug.h:141-149 | a queue or priority_queue prints its underlying container through the overloads, so it appends exactly what that container appends, digits included when the container is a `std::vector<bool>` |
| `DebugPrinter.Printer.PrintSet` | debug.h:151-163 | a set-like container is appended between `{` and `}` |
| `DebugPrinter.Printer.PrintEntry` | debug.h:169-171 | one map element is appended as key, `:`, value |
| `DebugPrinter.Printer.PrintMap` | debug.h:165-181 | the iterator loop appends `{`, the entries with `,` between them, `}` |
| `DebugPrinter.Printer.PrintPair` | debug.h:183-191 | appends `<`, first, `,`, second, `>` |
| `DebugPrinter.Printer.PrintTuple` | debug.h:193-208 | appends `<`, element 0, the fold of `,` and each later element, `>` |
| `DebugPrinter.Printer.DebugSingle` | debug.h:211-214 | appends one space and the value |
| `DebugPrinter.Printer.DebugImpl` | debug.h:216-221 | the recursion over the arguments appends each after a space, then one newline |
| `DebugPrinter.Printer.Debug` | debug.h:226-230 | one `debug` call appends exactly `DebugLine(src, args)` and nothing else |
| `DebugFormat.SignedValue` | debug.h:102 | the value of a signed char lies in -128..127 and agrees with the bit pattern modulo 256 |
| `DebugProperties.BoolIsWord` | debug.h:80 | a bool is written `True` exactly when it is true, otherwise `False`, and never with a digit |
| `DebugProperties.CharLiteralTable` | debug.h:82-100 | the seven chars of the escape table are written as quote, backslash, letter, quote (4 characters); every other char as quote, char, quote (3 characters) |
| `DebugProperties.EscapeTableInvertible` | debug.h:82-100 | no two escaped chars share an escape letter |
| `DebugProperties.CharLiteralRoundTrip` | debug.h:82-100 | every char's literal reads back as that char, so distinct chars are written differently |
| `DebugProperties.CharLiteralParseSound` | debug.h:82-100 | any text that reads as a char literal is exactly what is written for that char |
| `DebugProperties.SmallCharIsNumber` | debug.h:102-104 | a signed or unsigned char is written as a decimal that reads back as its integer value, and never as a quoted char |
| `DebugProperties.IntIsDecimal` | debug.h:75 | an integer is written in decimal and reads back as itself |
| `TextUtil.DecimalRoundTrip` | debug.h:75 | the decimal form of any integer parses back to that integer |
| `DebugProperties.StrIsQuotedVerbatim` | debug.h:124 | a string is `"`, its characters unchanged, `"` |
| `DebugProperties.TailIsJoin` | debug.h:132-135 | the loop's comma-prefixed elements equal one comma followed by the element renderings joined with commas |
| `DebugProperties.ItemsIsJoin` | debug.h:130-136 | first-then-loop writes exactly the element renderings joined with commas |
| `TextUtil.JoinWithLength` | debug.h:130-136 | joining n >= 1 pieces inserts exactly n - 1 separators |
| `DebugProperties.LineShape` | debug.h:127-139 | a vector, deque or list is `[`, renderings joined by `,`, `]`; an empty one gives `[]`; n elements add n - 1 commas |
| `DebugProperties.LineNoTrailingComma` | debug.h:130-137 | the character before `]` is a comma exactly when there are two or more elements and the last is an empty `std::vector<bool>` or an adapter holding one |
| `DebugProperties.SetShape` | debug.h:151-163 | a set-like container is `{`, renderings joined by `,`, `}`; an empty one gives `{}` |
| `DebugProperties.EntriesTailIsJoin` | debug.h:172-177 | the map loop's comma-prefixed entries equal one comma followed by the `key:value` texts joined with commas |
| `DebugProperties.MapShape` | debug.h:165-181 | a map-like container is `{k1:v1,k2:v2,...}` in iteration order; an empty one gives `{}` |
| `DebugProperties.PairShape` | debug.h:183-191 | a pair is `<` first `,` second `>`, the same text as the one-plus-one tuple |
| `DebugProperties.TupleShape` | debug.h:193-208 | a tuple of k >= 1 elements is `<`, its k renderings joined by `,`, `>` |
| `DebugProperties.AdapterAsContainer` | debug.h:141-149 | a queue or priority_queue is written exactly as its underlying container: over a deque, list or vector as `[`, the renderings in storage order joined by `,`, `]`; over a `std::vector<bool>` as one digit per element and no brackets |
| `DebugProperties.BitsShape` | debug.h:106-110 | a `std::vector<bool>` of n elements is n characters, `1` or `0` per element, with no delimiters |
| `DebugProperties.RenderEmptyIff` | debug.h:106-149 | a value writes nothing exactly when it is an empty `std::vector<bool>` or an adapter holding one |
| `DebugProperties.RenderNotEndingInComma` | debug.h:80-208 | no value's text ends in a comma |
| `DebugProperties.ArrayRepeatsSecond` | debug.h:112-121 | an array of N elements is written as the list of element 0 followed by N - 1 copies of element 1 |
| `DebugProperties.ArrayFaithfulWhenUniform` | debug.h:116-119 | an array is written like the list of its elements when all elements after the first are equal |
| `DebugProperties.ArrayExample` | debug.h:118 | the array `{1, 2, 3}` is written `[1,2,2]` |
| `DebugProperties.DebugArgsShape` | debug.h:211-221 | the arguments part is one space and the renderings joined by single spaces (nothing for no arguments), then one newline |
| `DebugProperties.DebugLineShape` | debug.h:226-230 | a `debug` line is `[`, the source text, `] :`, each rendering after one space, then a newline as its last character |
| `DebugProperties.Examples` | debug.h:80-191 | `(3,4)` is `<3,4>`, an empty vector is `[]`, `a"b` is `"a"b"`, the signed char `'x'` is `120`, `'x'` is `'x'`, false is `False`, a `priority_queue<bool>` storing true, false is `10` |

## Left out

- Other types through the fallback `DEBUG_STREAM << x` (debug.h:75). Only integers are modelled, as their plain decimal form. Floating point (such as `2.0` in main.cpp) and user types with their own `<<` are not modelled. Stream flags such as `std::hex` are not modelled either.
- The type traits and overload resolution (debug.h:29-69). They become the choice of `Value` constructor. The model does not enforce that C++ containers are homogeneous: a `Line` may mix kinds of elements.
- Iteration order. The elements of set-like and map-like containers and of a priority queue's storage are given in the order the container yields them. Sorting and hashing are not modelled.
- Types the traits do not match: a string literal's type `char[N]` is not `char[]`, so such a literal goes to the fallback and prints unquoted. No `Value` constructor stands for it.
- A `const char*` is printed up to its terminating NUL, and a null pointer is undefined behaviour. `Str` holds the characters before the terminator.
- `static_assert(N > 0)` and `std::tuple<>`. An empty array or an empty tuple does not compile. `Array` and `Tuple` are non-empty by construction (a first element plus the rest).
- Plain `char` is a byte in C++ and a Unicode code point here. Signed and unsigned chars are `bv8` bit patterns.
- `#__VA_ARGS__` (debug.h:228). The source text of the arguments is the string parameter `src` of `Debug`.
- `std::endl` (debug.h:216) flushes the stream. It is modelled as `'\n'` only.
- The protected-member accessor in the adapter (debug.h:144-147). Only its effect is modelled: the wrapped container is printed.
- `Adapter` may hold any `Value`. In C++ the container of a queue or priority_queue is a sequence container (deque, list or vector, including `std::vector<bool>`); the model does not enforce that restriction.
- The choice of stream (`DEBUG_STREAM`, debug.h:20-22). The stream is the `out` field of a `Printer`.
- test.h: the `TestBase` class and `DEFINE_TEST` header lines. This is test-harness plumbing that concatenates a header with dashes and prints a blank line.
- main.cpp: a driver that uses `DECLARE_TEST` and `set_debug_stream`, which the headers do not define. test.h and main.cpp are not part of this model.
