# sexp-cpp S-expression core in Dafny

This project models the `sexp` namespace of sexp-cpp: a library that reads
S-expressions from text and writes them back. Its parts are:

- the `Value` tagged union (include/sexp/value.hpp);
- the character-level `Lexer` (src/lexer.cpp);
- the recursive-descent `Parser` with its depth limit (src/parser.cpp);
- the writer `operator<<` with `escape_string` (src/io.cpp);
- the list utilities (src/util.cpp);
- `ListIterator` and `ListAdapter` (include/sexp/util.hpp).

Every part of the library that changes state step by step is a Dafny class
with imperative methods, and each method is proved against a pure function:

- `Lexing.Lexer` keeps the buffer position, the current character, the line
  counter and the token text.
- `Parsing.Parser` keeps the lexer, the current token and the depth counter.
- `Values.Slot` is a C++ `Value` object, whose contents moves and the pair
  setters replace.
- `ListUtil.ListIterator` holds the current cell.

The writer is the pure function `Printing.Print`. Its loops `Write`,
`WriteList`, `WriteArray` and `EscapeString` are proved to compute it. The
list utilities are plain recursive functions.

Modules, one per file:

| file | module | contents |
|---|---|---|
| errors.dfy | `Errors` | the failure value: a line number and a cause, in place of `std::runtime_error` and the exceptions of `std::stoi`; `Option` and `Result` |
| values.dfy | `Values` | `Value`, `operator==`, the copy, the accessors, and the class `Slot` |
| lexer.dfy | `Lexing` | the lexer as functions on a `LexState`, and the class `Lexer` |
| parser.dfy | `Parsing` | `read()` as functions on a `PState`, the class `Parser`, and `from_stream` / `from_stream_many` |
| parser_props.dfy | `ParserProperties` | the depth limit, the Nil filter, the skip loops, concrete inputs |
| printer.dfy | `Printing` | `escape_string`, `operator<<` and their loops |
| roundtrip.dfy | `RoundTrip` | the lexer reading escaped strings and printed integers back |
| readback.dfy | `ReadBack` | print then parse gives back an equal value |
| parser_examples.dfy | `ParserExamples` | `from_stream` on small inputs: the translation marker, the error paths, `std::stoi` |
| util.dfy | `ListUtil` | `is_list`, `list_length`, `list_ref`, `assoc_ref`, the `c…r` helpers, the iterator |

The input is a character sequence to which one space is appended. The C++
lexer appends the same sentinel space when its stream runs dry. A failure
(`throw std::runtime_error`) is an `Err` value carrying a cause and a line
number: for the lexer and the parser, the line their message names. The
`assoc_ref` message names no line; see "## Left out".

## Model

| member | source | states |
|---|---|---|
| Values.TruthyIffNotNil | include/sexp/value.hpp:161-171 | only Nil converts to false; `is_real` holds exactly for Integer and Real |
| Values.Equal | include/sexp/value.hpp:258-291 | defined by its body: tags first, then payloads or children; Values.EqualIffSameStripped and Values.EqualIsEquivalence state what it means |
| Values.EqualIffSameStripped | include/sexp/value.hpp:258-291 | `operator==` holds exactly when the two trees agree in every tag, payload and child; line stamps are ignored |
| Values.EqualIsEquivalence | include/sexp/value.hpp:258-291 | `operator==` is reflexive, symmetric and transitive |
| Values.WithLine | src/parser.cpp:254-257 | `set_line` changes only the line stamp: same tag, same contents up to stamps |
| Values.Clone | include/sexp/value.hpp:226-255 | defined by its body, rebuilding every node; Values.CloneIsFaithful states that it is the same tree |
| Values.CloneIsFaithful | include/sexp/value.hpp:226-255 | the deep copy is the same tree as the original and compares equal to it |
| Values.AsFloat | include/sexp/value.hpp:350-365 | requires `is_real`; an Integer is widened, a Real gives its stored value |
| Values.GetCar | include/sexp/value.hpp:294-298 | requires a pair (the source's `assert` on the tag); the result is its head, and the pair is exactly that head joined to its tail |
| Values.GetCdr | include/sexp/value.hpp:301-305 | requires a pair; the result is its tail, and the pair is exactly its head joined to that tail |
| Values.AsBool | include/sexp/value.hpp:336-340 | requires a Boolean; the result is its stored flag, and the value converts to true even when the flag is false |
| Values.AsInt | include/sexp/value.hpp:343-347 | requires an Integer; the result is its stored integer, which `as_float` widens unchanged |
| Values.AsArray | src/io.cpp:120 | requires an Array; the result is its elements, and an array converts to true even when empty |
| Values.AsString | include/sexp/value.hpp:368-373 | requires a String or a Symbol; the result is its text |
| Values.Slot.constructor | include/sexp/value.hpp:115-117 | a default-constructed value is Nil and converts to false |
| Values.Slot.Of | include/sexp/value.hpp:58-63 | the atom factories hold exactly the atom they are given |
| Values.Slot.Move | include/sexp/value.hpp:82-113 | the new object takes the source's tag and payload; the source becomes Nil |
| Values.Slot.Copy | include/sexp/value.hpp:226-255 | the new object is a deep copy equal to the source; the source is unchanged |
| Values.Slot.MoveAssign | include/sexp/value.hpp:124-159 | the target takes the source's value and the source becomes Nil; a self-move leaves Nil |
| Values.Slot.MakeCons | include/sexp/value.hpp:64 | `cons(a, d)` is a new pair with head `a` and tail `d`; both arguments are left Nil |
| Values.Slot.SetCar | include/sexp/value.hpp:322-333 | requires a pair; replaces only the head, and the pair's tail and line stay |
| Values.Slot.SetCdr | include/sexp/value.hpp:322-333 | requires a pair; replaces only the tail, and the pair's head and line stay |
| Values.CopyIsIndependent | include/sexp/value.hpp:226-255 | changing the head of a copy leaves the original unchanged; this holds because a `Slot` holds an immutable value, which is what the deep copy provides in the source |
| Lexing.Buffer | src/lexer.cpp:64-68 | the buffer is the input followed by exactly one sentinel space |
| Lexing.StepChar | src/lexer.cpp:48-77 | `nextChar` moves one character on and counts a newline; at the end `c` becomes EOF and nothing else changes |
| Lexing.SkipSpace | src/lexer.cpp:91-93 | the whitespace loop stops on a non-space and leaves the token text alone |
| Lexing.SkipComment | src/lexer.cpp:99-103 | the comment loop, corrected, stops on a newline or at EOF and always makes progress |
| Lexing.ScanString | src/lexer.cpp:119-155 | the string loop either ends past its closing quote or fails with "EOF while parsing string" naming the line the string began on |
| Lexing.ScanName | src/lexer.cpp:166-168 | the name of a `#` constant is the maximal run of letters, digits and `_` |
| Lexing.ScanAtom | src/lexer.cpp:198-215 | a symbol or number token is the current character and everything up to the next whitespace or `"();`; the sentinel keeps `c` off EOF |
| Lexing.LexConstant | src/lexer.cpp:156-186 | after `#`, the lexer state stays consistent and never moves backwards |
| Lexing.Lex | src/lexer.cpp:87-247 | `getNextToken` consumes input on every token except EOF; EOF leaves `c` at EOF with an empty token |
| Lexing.Initial | src/lexer.cpp:27-41 | after construction the lexer stands on the first character with an empty token |
| Lexing.EndIsFinal | src/lexer.cpp:48-53 | once input and sentinel are used up, `nextChar` changes nothing and every token is EOF |
| Lexing.LexTrailingSpace | src/lexer.cpp:188-189 | whitespace up to the end of the input lexes as EOF, with the line count unchanged when it has no newline |
| Lexing.LexIgnoresToken | src/lexer.cpp:95 | the token text is cleared first, so its previous contents do not affect the next token |
| Lexing.LexSkipsSpace | src/lexer.cpp:91-93 | whitespace in front of a token does not change the token |
| Lexing.SkipCommentReaches | src/lexer.cpp:99-103 | the comment loop stops exactly on the first newline after the `;` |
| Lexing.SkipsCommentToNewline | src/lexer.cpp:99-103 | a `;` comment is skipped through its newline: the token is the one that follows |
| Lexing.SkipCommentToEnd | src/lexer.cpp:99-103 | with no newline left, the corrected comment loop reaches EOF |
| Lexing.TrailingCommentEndsInput | src/lexer.cpp:99-103 | corrected: a comment that runs to the end of the input is followed by EOF |
| Lexing.SkipCommentAsWritten | src/lexer.cpp:99-103 | defined by its body: the comment loop as written, run for at most `fuel` iterations; Lexing.CommentAsWrittenNeverStops and Lexing.TrailingCommentHangs state its behaviour |
| Lexing.CommentAsWrittenNeverStops | src/lexer.cpp:99-103 | as written, the comment loop with no newline left has not stopped after any number of iterations |
| Lexing.TrailingCommentHangs | src/lexer.cpp:99-103 | on `x ;c` the lexer reads the symbol `x`, and then the comment loop as written never stops |
| Lexing.LexParen | src/lexer.cpp:105-117 | `)` is CLOSE_PAREN; `(` is ARRAY_START in array mode and OPEN_PAREN otherwise |
| Lexing.LexHash | src/lexer.cpp:156-186 | `#(` is ARRAY_START in either mode; `#t` and `#f` are TRUE and FALSE; any other name fails with "Unknown constant" |
| Lexing.LexAtom | src/lexer.cpp:192-244 | an atom token is the maximal run of characters that are not whitespace or delimiters; it is a SYMBOL unless it starts like a number, in which case it is classified |
| Lexing.ClassifyExamples | src/lexer.cpp:217-234 | `.` is DOT; `-`, `5.6.7` and `12a` are SYMBOL; `1234.` is REAL; `-12` is INTEGER |
| Lexing.FlagsOfAppend | src/lexer.cpp:194-215 | the digit, letter and dot flags of the number loop track the characters read so far |
| Lexing.TokenValueIsDecimal | src/lexer.cpp:250-273 | `getInteger` is the decimal value of the digits, negated after a leading `-` |
| Lexing.AccumulateIsDecimal | src/lexer.cpp:262-266 | the accumulator loop from any index finishes the decimal value of the digit string |
| Lexing.Lexer.constructor | src/lexer.cpp:27-41 | the lexer's state is the initial state over the input and its sentinel |
| Lexing.Lexer.NextChar | src/lexer.cpp:48-77 | the new state is one `nextChar` step from the old |
| Lexing.Lexer.AddChar | src/lexer.cpp:80-84 | the current character is appended to the token, then one step is taken |
| Lexing.Lexer.GetNextToken | src/lexer.cpp:87-247 | the loops yield exactly the token, new state or error that `Lex` gives |
| Lexing.Lexer.ReadConstant | src/lexer.cpp:156-186 | the `#` branch yields exactly what `LexConstant` gives |
| Lexing.Lexer.ReadString | src/lexer.cpp:119-155 | the string loop yields exactly what `ScanString` gives |
| Lexing.Lexer.ReadAtom | src/lexer.cpp:192-244 | the flag-keeping loop ends in `ScanAtom`'s state and returns `Classify`'s kind |
| Lexing.Lexer.GetInteger | src/lexer.cpp:250-273 | the accumulator loop computes `TokenValue` of the token text |
| Parsing.Advance | src/parser.cpp:254 | fetching a token keeps the parser state well formed and consumes input unless the token was EOF |
| Parsing.Start | src/parser.cpp:64-70 | the parser's constructor reads the first token into a well-formed state |
| Parsing.ParseValue | src/parser.cpp:97-258 | `read()` consumes at least one token and stamps its value with the line the lexer was on when it began |
| Parsing.ParseDatum | src/parser.cpp:102-247 | the token switch of `read()` never stops on EOF when it succeeds |
| Parsing.DigitRun | src/parser.cpp:166 | the digits `std::stoi` reads are the longest run of decimal digits at the front of the text |
| Parsing.Stoi | src/parser.cpp:166 | `std::stoi` gives a number within the range of `int`; it fails with `invalid_argument` exactly when no digit follows the optional sign, and otherwise only with `out_of_range` |
| Parsing.ParseListBody | src/parser.cpp:104-155 | the OPEN_PAREN case ends on its closing `)` |
| Parsing.ParseListContent | src/parser.cpp:109-153 | a non-empty list, read or skipped, ends on a `)` |
| Parsing.ParseListElems | src/parser.cpp:122-153 | the elements of a list within the limit end on a `)` and consume input |
| Parsing.ParseListTail | src/parser.cpp:125-152 | the keep loop only adds elements after those already read, and ends on a `)` |
| Parsing.ParseArrayBody | src/parser.cpp:181-235 | the ARRAY_START case ends on its closing `)` |
| Parsing.ParseArrayContent | src/parser.cpp:186-234 | a non-empty array, read or skipped, ends on a `)` |
| Parsing.ParseArrayElems | src/parser.cpp:221-233 | the do-while loop only appends, ends on a `)`, and every element it adds passes the Nil filter |
| Parsing.SkippedList | src/parser.cpp:111-120 | the list skip loop, corrected: when it succeeds it ends on a `)` and has not moved backwards |
| Parsing.SkippedArray | src/parser.cpp:188-220 | the array skip loop, corrected: when it succeeds it ends on a `)`, and its result is Nil or a marker `#(_ "text")` |
| Parsing.ParseAll | src/parser.cpp:86-94 | `read_many` keeps the values already read and adds at least one unless the token is EOF |
| Parsing.Parser.constructor | src/parser.cpp:64-70 | the depth counter starts at -1 |
| Parsing.Parser.Create | src/parser.cpp:64-70 | the parser reads the first token through its lexer; it fails exactly when that token fails |
| Parsing.Parser.Next | src/parser.cpp:254 | the new state is `Advance` of the old; the depth counter is unchanged |
| Parsing.Parser.Read | src/parser.cpp:97-258 | `read()` yields exactly `ParseValue`'s value and state, and restores the depth counter |
| Parsing.Parser.ReadList | src/parser.cpp:104-155 | the OPEN_PAREN case yields exactly `ParseListBody`'s result |
| Parsing.Parser.ReadListContent | src/parser.cpp:109-153 | the depth counter rises for the list and falls back; the result is `ParseListContent`'s |
| Parsing.Parser.ReadListElems | src/parser.cpp:122-153 | the result is `ParseListElems`'s |
| Parsing.Parser.ReadListTail | src/parser.cpp:125-152 | the element loop with its dotted tail yields exactly `ParseListTail`'s elements, tail and state |
| Parsing.Parser.ReadArray | src/parser.cpp:181-235 | the ARRAY_START case yields exactly `ParseArrayBody`'s result |
| Parsing.Parser.ReadArrayContent | src/parser.cpp:186-234 | the result is `ParseArrayContent`'s |
| Parsing.Parser.ReadArrayElems | src/parser.cpp:221-233 | the do-while loop yields exactly `ParseArrayElems`'s elements |
| Parsing.Parser.SkipList | src/parser.cpp:111-120 | the list skip loop yields exactly `SkippedList`'s state or error |
| Parsing.Parser.SkipArray | src/parser.cpp:188-220 | the array skip loop with the `_` carve-out yields exactly `SkippedArray`'s result |
| Parsing.Parser.ReadMany | src/parser.cpp:86-94 | `read_many` returns exactly `ParseAll`'s values |
| Parsing.FromStream | src/parser.cpp:37-47 | one value, then the "trailing garbage" check: exactly `ParseOne` |
| Parsing.FromStreamMany | src/parser.cpp:56-62 | every top-level value, in order: exactly `ParseMany` |
| ParserProperties.ParseOneIffSingleMany | src/parser.cpp:37-62 | `from_stream` succeeds with `v` exactly when `from_stream_many` returns the single value `v` |
| ParserProperties.StoiReadsDigits | src/parser.cpp:166 | on digits after an optional `-`, the only texts `getInteger` is meant for, `std::stoi` reads the same number, or rejects it as out of range |
| ParserProperties.StoiReadsPrefix | src/parser.cpp:166 | `1-2`, `5+` and `--5` are INTEGER tokens; `std::stoi` reads 1 and 5 and rejects `--5`, where `getInteger` would give 72, 45 and 25 |
| ParserProperties.ParseOneNesting | src/parser.cpp:109-120 | with a limit d >= 0, a parsed value nests at most d + 1 lists or arrays deep, not counting translation markers |
| ParserProperties.ValueNesting | src/parser.cpp:97-258 | `read()` at depth counter `cur` returns a value nested at most `depth - cur` deep |
| ParserProperties.ListBodyNesting | src/parser.cpp:104-155 | the same bound for the OPEN_PAREN case |
| ParserProperties.ListContentNesting | src/parser.cpp:109-153 | a list opened at level l is nested at most `depth - l + 1` deep; a list opened one level past the limit is skipped and gives Nil |
| ParserProperties.ListElemsNesting | src/parser.cpp:122-153 | the same bound for the elements of a list within the limit |
| ParserProperties.ListTailNesting | src/parser.cpp:125-152 | every element and the tail read by the keep loop respect the bound |
| ParserProperties.ArrayBodyNesting | src/parser.cpp:181-235 | the same bound for the ARRAY_START case |
| ParserProperties.ArrayContentNesting | src/parser.cpp:186-234 | an array opened at level l is nested at most `depth - l + 1` deep |
| ParserProperties.ArrayElemsNesting | src/parser.cpp:221-233 | every element the do-while loop reads respects the bound |
| ParserProperties.ListTailFilters | src/parser.cpp:144-150 | every element the keep loop adds after the first passes the Nil filter |
| ParserProperties.ListTailAtLimitHasNoNil | src/parser.cpp:133-150 | at the depth limit the keep loop adds no Nil after the first element |
| ParserProperties.ArrayAtLimitHasNoNil | src/parser.cpp:221-233 | an array read at the depth limit holds no Nil |
| Parsing.SkipListAsWritten | src/parser.cpp:111-120 | defined by its body: the list skip loop as written, run for at most `fuel` iterations; ParserProperties.SkipListAsWrittenNeverStops, SkippedListAgrees and SkippedListCorrects state its behaviour |
| Parsing.SkipArrayAsWritten | src/parser.cpp:188-220 | defined by its body: the array skip loop as written, run for at most `fuel` iterations; ParserProperties.SkipArrayAsWrittenNeverStops, SkippedArrayAgrees and SkippedArrayCorrects state its behaviour |
| ParserProperties.SkipListAsWrittenNeverStops | src/parser.cpp:111-120 | as written, the list skip loop on EOF has not stopped after any number of iterations |
| ParserProperties.SkipArrayAsWrittenNeverStops | src/parser.cpp:188-220 | as written, the array skip loop on EOF has not stopped after any number of iterations |
| ParserProperties.SkipListStep | src/parser.cpp:111-120 | on a token other than `)` and EOF, one turn of both list skips does the same thing |
| ParserProperties.SkippedListAgrees | src/parser.cpp:111-120 | wherever the list skip loop as written stops, the corrected skip gives the same result |
| ParserProperties.SkipArrayStep | src/parser.cpp:188-220 | on a token other than `)` and EOF, one turn of both array skips does the same thing |
| ParserProperties.SkippedArrayAgrees | src/parser.cpp:188-220 | wherever the array skip loop as written stops, the corrected skip gives the same result |
| ParserProperties.SkipListFuelMono | src/parser.cpp:113-119 | once the list skip loop as written has stopped, more iterations do not change its result |
| ParserProperties.SkippedListCorrects | src/parser.cpp:111-120 | if the list skip loop as written has not stopped within `Measure` iterations, a bound set by the input left, it never stops, and the corrected skip fails with "Unexpected EOF" instead; with SkippedListAgrees this covers every case |
| ParserProperties.SkipArrayFuelMono | src/parser.cpp:190-219 | once the array skip loop as written has stopped, more iterations do not change its result |
| ParserProperties.SkippedArrayCorrects | src/parser.cpp:188-220 | if the array skip loop as written has not stopped within `Measure` iterations, it never stops, and the corrected skip fails with "Unexpected EOF" instead; with SkippedArrayAgrees this covers every case |
| ParserProperties.SkippedArrayKeepsMarker | src/parser.cpp:198-213 | one level past the limit, `_`, a string and `)` give the marker `#(_ "text")` holding that string, and the skip ends on that `)` |
| ParserProperties.UnclosedTokens | src/lexer.cpp:87-247 | the tokens of `((1` are two OPEN_PARENs, the integer 1 and EOF |
| ParserProperties.UnclosedParse | src/parser.cpp:111-120 | on the tokens of `((1` with a limit of 0, the skip of the inner list runs into EOF and the whole `read()` fails with "Unexpected EOF" at line 0 |
| ParserProperties.UnclosedSkippedList | src/parser.cpp:111-120 | `((1` with limit 0: the corrected parse fails with "Unexpected EOF" at line 0, and the skip loop as written never stops |
| ParserProperties.EmptyParse | src/parser.cpp:104-107 | `()` or `#()` read from its opening token is Nil stamped with that token's line, followed by the token after `)` |
| ParserProperties.EmptyParensTokens | src/lexer.cpp:105-117 | `()` lexes as its two parentheses, then EOF |
| ParserProperties.EmptyParens | src/parser.cpp:104-107 | `()` parses to Nil in either mode |
| ParserProperties.EmptyArrayTokens | src/lexer.cpp:156-163 | `#()` lexes as ARRAY_START, `)`, then EOF |
| ParserProperties.EmptyArrayIsNil | src/parser.cpp:181-184 | `#()` parses to Nil, not to an empty array |
| Printing.Escape | src/io.cpp:24-43 | defined by its body: the quote, the escaped body, the quote; Printing.UnescapeEscaped, Printing.EscapedQuotesArePaired and RoundTrip.LexEscaped state what it means |
| Printing.EscapeString | src/io.cpp:24-43 | the loop writes the quote, each character's escape, then the quote |
| Printing.UnescapeEscaped | src/io.cpp:24-43 | reading an escaped body back gives the original text: escaping loses nothing |
| Printing.EscapedQuotesArePaired | src/io.cpp:24-43 | inside the quotes, every `"` is preceded by a backslash, so no quote ends the string early |
| Printing.EscapeBodyAppend | src/io.cpp:31-40 | escaping works character by character: the escape of a concatenation is the concatenation of the escapes |
| Printing.NatText | src/io.cpp:83-94 | an integer's magnitude is written as at least one decimal digit |
| Printing.PrintList | src/io.cpp:53-77 | a list is `(`, its elements separated by single spaces, then ` . tail` if the tail is not Nil, then `)` |
| Printing.PrintPairsOfChain | src/io.cpp:55-76 | the do-while loop writes the heads separated by spaces and a non-Nil tail after ` . ` |
| Printing.PrintArray | src/io.cpp:117-128 | an array is `#(`, its elements separated by single spaces, then `)` |
| Printing.PrintItemsSpaced | src/io.cpp:120-126 | the for loop from index i writes a space before every element but the first |
| Printing.PrintIgnoresLines | src/io.cpp:45-132 | line stamps are never written |
| Printing.PrintRespectsEqual | src/io.cpp:45-132 | values equal under `operator==` print the same |
| Printing.Write | src/io.cpp:45-132 | `operator<<` with its loops writes exactly `Print(v)` |
| Printing.WriteList | src/io.cpp:53-77 | the pair-walking do-while loop writes exactly `Print(v)` of a pair |
| Printing.WriteArray | src/io.cpp:117-128 | the for loop over an array writes exactly `Print(v)` of an array |
| RoundTrip.LexEscaped | src/lexer.cpp:119-155 | the lexer reads `escape_string(text)` as a STRING token whose text is `text`, if `text` holds no `\r` |
| RoundTrip.ScanEscaped | src/lexer.cpp:119-155 | the string loop reads an escaped body back to the text it came from |
| RoundTrip.NatTextValue | src/io.cpp:83-94 | the digits written for n read back as n |
| RoundTrip.IntTextReadsBack | src/lexer.cpp:250-273 | the text written for any integer is an INTEGER token, and `getInteger` reads it back as that integer |
| RoundTrip.SignedDigitsAreInteger | src/lexer.cpp:192-234 | digits with an optional leading `-` are classified INTEGER |
| ReadBack.PrintThenParse | src/parser.cpp:37-47 | with no depth limit and outside array mode, `from_stream` on the text of any readable value returns a value equal to it, and `from_stream_many` returns just that value |
| ReadBack.DatumReadsBack | src/parser.cpp:97-258 | `read()` on the printed text of a readable value reads a value with the same structure and stops right after the text |
| ReadBack.NilReadsBack | src/io.cpp:49-51 | `()` reads back as Nil |
| ReadBack.BooleanReadsBack | src/io.cpp:113-115 | `#t` and `#f` read back as the same boolean |
| ReadBack.IntegerReadsBack | src/io.cpp:83-94 | a printed integer within the range of `int` reads back as the same integer |
| ReadBack.IntTextStoi | src/parser.cpp:166 | `std::stoi` reads the text printed for any `int` back as that integer |
| ReadBack.StringReadsBack | src/io.cpp:79-81 | an escaped string reads back as the same string |
| ReadBack.SymbolReadsBack | src/io.cpp:109-111 | a symbol's raw text reads back as the same symbol |
| ReadBack.ListReadsBack | src/parser.cpp:104-155 | the printed text of a pair reads back as a chain with the same heads and tail |
| ReadBack.TailReadsBack | src/parser.cpp:125-152 | the keep loop on what the writer prints after a head reads the remaining heads and the dotted tail |
| ReadBack.PairReadsBack | src/parser.cpp:143-151 | one more printed element is read as the next head of the chain |
| ReadBack.DottedReadsBack | src/parser.cpp:127-141 | ` . tail)` is read as the final cdr of the chain |
| ReadBack.ArrayReadsBack | src/parser.cpp:181-235 | the printed text of a non-empty array reads back as an array whose elements are equal one by one |
| ReadBack.ItemsReadBack | src/parser.cpp:221-233 | the do-while loop on the printed elements reads them back one by one, in order |
| ParserExamples.MarkerIsKept | src/parser.cpp:198-213 | with a limit of 0, `(#(_ "x"))` reads as a list holding the marker `#(_ "x")` |
| ParserExamples.MarkerNeedsString | src/parser.cpp:198-218 | with a limit of 0, `(#(_ 5))` has no marker: the skipped array is Nil, kept as the list's first element |
| ParserExamples.MarkerAtEndIsKept | src/parser.cpp:190-213 | the carve-out looks only at the tokens before `)`: with a limit of 0, `(#(a _ "x"))` also reads as a list holding `#(_ "x")` |
| ParserExamples.DottedTailNeedsClose | src/parser.cpp:127-141 | `(a . b c)` fails with "Expected ')'" |
| ParserExamples.StrayClose | src/parser.cpp:241-243 | `)` fails with "Unexpected ')'" |
| ParserExamples.StrayDot | src/parser.cpp:245-247 | `.` fails with "Unexpected '.'" |
| ParserExamples.TwoValues | src/parser.cpp:41-45 | `from_stream` on `a b` fails with "trailing garbage in stream" |
| ParserExamples.IntegerPrefix | src/parser.cpp:165-167 | `1-2` reads as the integer 1 |
| ParserExamples.DoubleMinus | src/parser.cpp:165-167 | `--5` fails in `std::stoi` with `invalid_argument` |
| ListUtil.ChainParts | src/parser.cpp:122-153 | a chain of pairs built from heads and a non-pair tail comes apart into exactly those heads and that tail |
| ListUtil.IsList | src/util.cpp:89-103 | defined by its body; ListUtil.ListShape states it against the chain's elements and its end |
| ListUtil.ListLength | src/util.cpp:106-121 | defined by its body; ListUtil.ListShape states that it counts the heads |
| ListUtil.ListRef | src/util.cpp:124-135 | requires an index within the length, as `get_car`/`get_cdr` assert a pair; ListUtil.ListShape states that it is the index-th head |
| ListUtil.ListShape | src/util.cpp:90-135 | `is_list` holds exactly when the chain of pairs ends in Nil; `list_length` counts the heads; `list_ref(i)` is the i-th head |
| ListUtil.ChainIsListIffNil | src/util.cpp:90-122 | a chain is a list exactly when its tail is Nil; its length is the number of heads, whatever the tail |
| ListUtil.DottedExamples | src/util.cpp:90-122 | `(1 . 5)` and `(1 2 3 4 . 5)` are not lists, the latter has length 4, and `(1 2)` is a list |
| ListUtil.FirstBinding | src/util.cpp:145-156 | the index of the first element that binds the key: no earlier element does |
| ListUtil.AssocRef | src/util.cpp:137-164 | defined by its body; ListUtil.AssocRefFindsFirst states what it returns |
| ListUtil.AssocRefFindsFirst | src/util.cpp:138-164 | `assoc_ref` returns the cdr of the first element binding the key; with none, Nil on a list, and otherwise an error with the tail's line |
| ListUtil.CxRSplits | src/util.cpp:27-87 | a longer helper path walks its first part, then the rest |
| ListUtil.CxR | src/util.cpp:27-87 | defined by its body: the helpers' `get_car`/`get_cdr` steps along a path of `a`/`d` letters; ListUtil.CxRSplits and ListUtil.CxRIsReversedLisp state what it means |
| ListUtil.LispCxR | src/util.cpp:27-87 | the conventional Lisp reading of the same names, the reference ListUtil.CxRIsReversedLisp compares the helpers with |
| ListUtil.CxRIsReversedLisp | src/util.cpp:27-87 | the helpers apply their letters left to right: each equals the Lisp function with the reversed name |
| ListUtil.CadrExample | src/util.cpp:30 | `cadr(sx)` is `get_cdr(get_car(sx))`, which is Lisp's `cdar` |
| ListUtil.Next | include/sexp/util.hpp:51-64 | from a pair whose cdr is a pair, one step moves to that cdr; from a pair whose cdr is anything else, and from the end, the iterator is at the end |
| ListUtil.ListIterator.End | include/sexp/util.hpp:37-39 | the default iterator is the end |
| ListUtil.ListIterator.From | include/sexp/util.hpp:41-43 | the iterator of a pair stands on it; that of any other value is the end |
| ListUtil.ListIterator.Increment | include/sexp/util.hpp:51-64 | prefix `++` takes one `Next` step |
| ListUtil.ListIterator.PostIncrement | include/sexp/util.hpp:66-71 | postfix `++` returns the old position and advances the iterator |
| ListUtil.ListAdapter.constructor | include/sexp/util.hpp:80-82 | the adapter holds the value it iterates |
| ListUtil.ListAdapter.Begin | include/sexp/util.hpp:84 | `begin()` is the iterator built from the value |
| ListUtil.ListAdapter.End | include/sexp/util.hpp:85 | `end()` is the end iterator |
| ListUtil.BeginIsEnd | include/sexp/util.hpp:41-46 | `begin() == end()` exactly when the value is not a pair |
| ListUtil.StepsWalkElements | include/sexp/util.hpp:51-64 | after k steps the iterator stands on the k-th element's pair, and it reaches the end after exactly `list_length` steps |
| ListUtil.CollectCars | include/sexp/util.hpp:74-86 | a range-for over the adapter dereferences exactly the list's elements, in order, `list_length` of them |

## Left out

- Floating point: `Lexer::getReal`, `string2float`/`float2string` and the REAL case of `operator<<` are not part of this model. A Real carries the text of its token, is printed as that text, and is never read back by the round trip.
- Values.Equal: two Reals are compared by their text, not as `float`s, so `1.0` and `1.00` differ here.
- Values.Equal: the Array case, element by element, is the model's own extension. The switch of `operator==` in the header has no Array case, and neither src/parser.cpp nor src/io.cpp compares arrays.
- Stream I/O: the 16384-byte refills of the lexer buffer, the `istringstream` wrappers `from_string` and `from_string_many`, and the `SEXP_USE_LOCALE` switches are not modelled. The input is one finite sequence followed by the sentinel.
- Parsing.Stoi: `std::stoi` throws `std::invalid_argument` or `std::out_of_range`, which are not `std::runtime_error` and name no line. The model reports them as errors stamped with the lexer's line. Leading whitespace, which `std::stoi` skips, cannot occur in a token.
- Lexing.Lexer.GetInteger: the accumulator is unbounded; the overflow of a C++ `int` is not modelled. `read()` does not call it.
- Parsing.SkipListAsWritten and Parsing.SkipArrayAsWritten are as written only for their own loop. A nested `(` or `#(` is read by the corrected `read()`. So on `(((1` with a limit of 0 the function gives "Unexpected EOF" where the source hangs in the inner loop.
- ListUtil.AssocRef: the `runtime_error` of `assoc_ref` prints the offending value and the key, not a line. The line in the model's error, the stamp of the tail that is neither Nil nor a pair, is the model's own choice. ListUtil.AssocRefFindsFirst states it with that line.
- Parsing.Parser.ReadListTail: the source builds the chain in place, moving a `cur` pointer along it and calling `set_cdr`. The model's loop collects the elements in a sequence and builds the chain with `Chain` after the loop. The resulting value is the same, but the in-place update of the cells and the aliasing through `cur` are not modelled.
- Values.Slot.SetCar: requires the moved value to be another object. The source also accepts a pair moved into its own head, which makes a cycle that the value model cannot hold.
- Values.Slot.SetCdr: requires the moved value to be another object, for the same reason as SetCar.
- Error message text: an error is its cause and its line number; the formatted message strings are not built.
- The character `0xFF` that `static_cast<char>(EOF)` produces, and a `char` that compares equal to EOF, are not modelled: the end of the input is its own case.
- The legacy `lisp` namespace, the pointer variant in include/sexp/sexpr.hpp, and the declaration-only headers include/sexp/parser.hpp and include/sexp/fwd.hpp are not part of this model. `as_symbol` is declared in value.hpp but never defined, so it is not modelled.
- The `Array` variant and the line stamp do not appear in the header's `Value`. They are modelled as src/parser.cpp and src/io.cpp use them.
- ListUtil.ListIterator.Equals: the C++ iterator compares cell addresses; here it compares the cells themselves. The two agree within one list, because each cell there is a longer suffix than the next.
- ListUtil.ListIterator.Deref: it has no contract of its own. What it yields is stated by ListUtil.CollectCars, which uses it.
- ListUtil.CxR: the 28 `c…r` helpers, in their const and non-const overloads, are one function of the path of `a`/`d` letters.
- ParserProperties.ParseOneNesting: a translation marker `#(_ "text")` counts as an atom in the bound. A marker is what an array skipped past the limit leaves behind.
- ReadBack.PrintThenParse: the round trip is proved only with no depth limit and outside array mode. It also excludes Reals, strings holding `\r` (the lexer drops them), symbols that lex as something else (numbers, `.`, text with spaces, delimiters or a leading `#`), integers outside the range of `int` (`std::stoi` rejects them) and empty arrays (`#()` reads as Nil).

## Findings

| source | as written | input that shows it | evidently intended | confidence | as-written member | corrected member |
|---|---|---|---|---|---|---|
| src/lexer.cpp:99-103 | the comment loop stops only on a newline; past the sentinel `c` stays EOF, so a comment that ends the input without a newline never stops | `x ;c` | a comment also ends at the end of the input | not executed | Lexing.TrailingCommentHangs | Lexing.TrailingCommentEndsInput |
| src/parser.cpp:111-120 | the loop that skips a list past the depth limit tests only for `)`; at EOF it fetches EOF forever (the array skip at src/parser.cpp:188-220 is the same) | `((1` with depth limit 0 | report "Unexpected EOF", as `read()` does elsewhere | not executed | ParserProperties.UnclosedSkippedList | ParserProperties.SkippedListCorrects |
