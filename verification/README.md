# Verified models of U-Boot's BedBug debugger, device API and LDR loader

This project models, in Dafny, the parts of U-Boot that do the most reasoning per line of code:

- the BedBug PowerPC assembler, disassembler and stepper (`common/bedbug.c`), with the table they are
  driven by (`include/bedbug/tables.h`);
- the debugger session and the `as` and `ds` commands on top of them (`common/cmd_bedbug.c`);
- the storage and environment enumerations of the external API (`api/api_storage.c`, `api/api.c`);
- the Blackfin LDR boot stream loader (`common/cmd_bootldr.c`).

`dafny verify dfyconfig.toml` checks everything. Nothing is assumed.

## How it is organised

| file | contents |
|---|---|
| `Wrappers.dfy`, `Words.dfy` | `Option`; 32-bit words, bit fields, sign extension, the 5-bit half swap of SPR numbers |
| `Text.dfy` | characters, `get_word`, `downstring`, `simple_strtoul`, `read_number` and the number printers they invert |
| `Tables.dfy` | the tables, what makes them well formed, and the searches over them |
| `Assembler.dfy`, `Disassembler.dfy`, `RoundTrip.dfy` | text to word, word to text, and the two composed |
| `Branch.dfy` | the next-address predictor against section 2.4 of Power ISA Version 2.06 Book I, 32-bit mode |
| `Debugger.dfy`, `Monitor.dfy` | the breakpoint main loop and stepping; the `as` and `ds` commands |
| `TableCheck.dfy`, `PpcRows.dfy`, `PpcNames.dfy`, `Ppc.dfy` | the 206 rows of the shipped table; that they are well formed and their mnemonics different; the round trip as built |
| `Storage.dfy`, `Environment.dfy` | device and environment enumeration |
| `Ldr.dfy` | the LDR loader |

Integers are unbounded in Dafny, so every 32-bit operation is written out: a `Word` is a number below
2^32, `Wrap` reduces modulo 2^32 and `Signed` reads a word as a C `long`. `Assemble`, `Disassemble`,
`NextAddress`, `Trap`, `DevEnum`, `Scan` and the like are specification functions; the methods that follow
the C code loop by loop are proved equal to them, and the theorems are about those functions.

Most results are stated for every well-formed table (`Tables.TableOk`); `Ppc.ShippedTableOk` proves that
the shipped one is such a table, and `Ppc.ShippedNames` that its mnemonics are pairwise different.

## Main results

- **Text round trip** (`RoundTrip.TextRoundTrip`): for every table, word and address, typing back what the
  disassembler printed gives the same word *if and only if* the word decodes, its row is the first of its
  name, its mnemonic did not run into its first operand, every operand is of a readable kind, and it has no
  stray bits. On the shipped tables (`Ppc.ShippedRoundTrip`) the condition on names is always met.
- **Assembler** (`AcceptedLine`, `RejectedLine`): success and failure are characterised exactly; an
  accepted word decodes to the row it was written for and every field holds its own operand.
- **Numbers** (`StrtoulTyped`, `OffsetShown`, `LoadListed`): what is typed is read by position and base, and
  what a line shows of every field reads as that field, displacements in parentheses included.
- **Search** (`FindOpcode`, `OrderedSteers`): the masked binary search is a linear scan.
- **Prediction** (`PredictionExact`, `PredictionAlways`): `find_next_address` is the architecture's next
  instruction address exactly under `Foreseen`; with arbitrary register contents, exactly for the BO
  values the switch lists.
  `StepOverExact` and `AssembleThenStepIf` say where `next` stops and where a branch that was typed goes.
- **Session** (`SessionExact`): whatever is typed at its prompts, a session is left exactly when a line that
  is run has a `continue`, or a `step` or `next` whose address exists.
- **Stepping** (`SteppingFollowsMachine`): over any number of steps the breakpoints set are the program
  counters of the machine if and only if every branch on the way is foreseen and every system call or trap
  came back to the next instruction.
- **Enumeration** (`CallDecreases`, `FreshRunIsFirstSlots`, `VisitsAllIff`): terminates from any flags,
  returns exactly slot 0 of each group, and so visits all devices if and only if no later slot is present.
- **Environment** (`ScanExact`, `WalkEndsIff`): one call is exact for any block and
  limit; the walk is complete and in order, and ends if and only if names differ.
- **LDR** (`LdrLoad`, `RunMeansBlocks`, `ParseStream`, `StreamParse`): the loader is specified on every memory
  on which its run is defined; a stream, behind a BF561's global header or not, means its block list, byte by
  byte.

## Where the code and its documentation differ

The model follows the code.

- The comment at `api/api_storage.c:211-226` describes visiting every device of a group. The "first" path
  of `dev_stor_get` never sets `*more`, so a group ends after its slot 0 (`VisitsAllIff`,
  `SecondDeviceMissed`).
- `spr_name` prints names in capitals and `spr_value` lowers its input before comparing, so a named special
  register never assembles; and SPR 0 cannot be told from an error (`OperandReadBack`; on the shipped tables,
  `mfspr` of LR and of register 0 in `ShippedMfspr`).
- A mnemonic of eight letters (`subfzeo.`, `subfmeo.`) loses the blank before its first operand, because
  the recorded length is 8 whatever was written (`CutLine`; on the shipped tables `ShippedSubfzeo`).
- Displacement operands print as `d(rA)`, which the tokenizer reads as one word (`PrintedErrors`; on the
  shipped tables `ShippedLwz`).
- `O_d` has 15 bits although the table's own comment gives it bits 16 to 31. Operands are cut to their field
  without a complaint (`FieldExact`), so a typed displacement of -4 loses its sign (`NegativeLwz`; on the
  shipped tables `ShippedNegative`).
- LR and CTR are used as they are, without clearing the low two bits, and BO values with their ignored
  bits set are not recognised (`PredictionExact`; on the shipped tables `ShippedMisaligned` and
  `ShippedIgnoredBits`).
- `API_env_enum` on an empty environment does not return NULL (`EmptyBlockNeverEnds`), and two entries of
  one name make a client loop for ever (`WalkEndsIff`, `RepeatedName`).
- A `ds` length of 2^31 or more prints nothing, yet the next address still advances (`HugeLength`).

## Model

| member | source | states |
|---|---|---|
| Text.DownString | common/bedbug.c:1017-1029 | lowers a buffer in place, character by character |
| Text.GetWord | common/bedbug.c:953-977 | the word and the remaining text are those of the token function: blanks skipped, no blank or comma inside the word, one comma consumed |
| Text.TokenReadBack | common/bedbug.c:953-977 | a run of word characters followed by nothing or a separator is read back as that very word, with one comma removed after it |
| Text.ReadBackStrtoul | lib/vsprintf.c:39-64 | after the printed digits of any 32-bit value, in base ten or sixteen, the number reader has read that value and goes on with what follows; it stops there unless that is another digit; the only exception is a printed 0 that the text turns into "0x" |
| Text.ReadBackHex | common/bedbug.c:990-1014 | `read_number` of the `0x%x` text of any 32-bit word is that word |
| Text.ReadBackDecimal | common/bedbug.c:990-1014 | `read_number` of the decimal text of any 32-bit word is that word |
| Text.StrtoulTyped | lib/vsprintf.c:39-64 | for any typed digits of base ten or sixteen, capitals or not, leading zeros or not: the sum of the digits' places in "0123456789abcdef" or "0123456789ABCDEF" times the powers of the base, modulo 2^32; reading stops at the first other character |
| Text.TypedDecimal | common/bedbug.c:990-1014 | `read_number` of any typed decimal number, with a sign or without, is its value modulo 2^32 |
| Text.TypedHex | common/bedbug.c:990-1014 | the same for hexadecimal numbers after "0x" or "0X" |
| Text.CaseOfDigits | lib/vsprintf.c:56-57 | lowering a text does not change the number read from it |
| Text.LoweredLetters | common/bedbug.c:1017-1029 | every capital letter becomes the small letter at its place in the alphabet, every other ASCII character stays |
| Text.WordChars | common/bedbug.c:953-977 | words end at exactly blanks, tabs, line ends, form feeds and commas |
| Words.EncodeDecode | common/bedbug.c:263-271 | a branch field survives sign extension to an address displacement and back |
| Words.DecodeEncode | common/bedbug.c:865-879 | a displacement survives encoding in a field if and only if it is a multiple of four within the field's signed reach |
| Words.SwapTwice | common/bedbug.c:490-510 | the swap of the two five-bit halves, done twice, gives back the low ten bits of any number |
| Words.AndOneBit | common/cmd_bootldr.c:56-60 | testing a mask of one bit is testing one binary digit |
| Tables.FindOpcode | common/bedbug.c:417-440 | on any table, a row returned matches; on every word the table steers, the binary search returns what a linear scan returns, null included |
| Tables.OrderedSteers | common/bedbug.c:417-440 | increasing opcodes with one mask for each primary opcode, each mask holding it, steer every word, whatever the names and operands |
| Tables.UniqueMatch | common/bedbug.c:417-440 | no word matches two rows of a well-formed table |
| Tables.FindOpcodeByName | common/bedbug.c:458-472 | the first row whose name is the lowered text, or none |
| Tables.GetOperandValue | common/bedbug.c:373-400 | the search over the operand list equals the recursive definition |
| Tables.OperandValueAt | common/bedbug.c:373-400 | with distinct identifiers the value found is the contents of that very field |
| Assembler.AsmPpc | common/bedbug.c:753-841 | the token-by-token loop computes the specified word and error for every line |
| Assembler.ReadOperands | common/bedbug.c:795-840 | the operand loop, with its text pointer and partial instruction, computes the recursive specification |
| Assembler.SentinelUnambiguous | common/bedbug.c:854-918 | `parse_operand` returns -1 exactly when it reports an error; no valid operand encodes to -1 |
| Assembler.FieldsOutcome | common/bedbug.c:795-840 | the operand loop succeeds exactly when no operand's word is in error, and then merges all encoded operands; otherwise the result is 0 and the error is that of the first bad operand |
| Assembler.EncodedField | common/bedbug.c:917-918 | each field of the merged operands holds its own operand: no field disturbs another |
| Assembler.AcceptedLine | common/bedbug.c:753-841 | an accepted line gives a nonzero word, decodes to the row it names, and every visible field holds its operand, every silent field the opcode's bits |
| Assembler.RejectedLine | common/bedbug.c:768-840 | any other line gives 0 and the error names the cause: none for no word, bad opcode, too few operands, or the first bad operand's own error |
| Assembler.FieldExact | common/bedbug.c:913-918 | the field of a written operand of an accepted line holds it exactly if and only if it fits the field's width |
| Assembler.TypedRegister | common/bedbug.c:881-895 | a register is its number after "r", "R", "%r", "%R" or nothing; 32 up to 2^31 - 1 is an error |
| Assembler.TypedSpr | common/bedbug.c:526-559 | a special register typed by number is encoded with its five-bit halves exchanged, and 0 is an error |
| Assembler.NamedSpr | common/bedbug.c:526-559 | a special register typed by name, in any case, is the first of that name, halves exchanged |
| Assembler.TypedTbr | common/bedbug.c:611-641 | exactly "tbl", "tbu", 268 and 269, in any case, are time-base registers |
| Assembler.ErrorCodes | common/bedbug.c:854-918 | each error code of an operand says exactly what is wrong with its word |
| Disassembler.PpcContext.PrintOperand | common/bedbug.c:250-342 | one visible operand is added with its separators and parentheses as the specification says, mixing writes at the recorded length with appends |
| Disassembler.PpcContext.PrintOperands | common/bedbug.c:231-346 | the operand loop leaves the specified buffer and recorded length |
| Disassembler.PpcContext.Format | common/bedbug.c:151-213 | one line of a listing: address, mnemonic column and operands, or `.long` for a word without a row |
| Disassembler.DisPpc | common/bedbug.c:79-215 | a listing is the lines of consecutive words modulo 2^32; a negative count prints nothing |
| RoundTrip.PrintedOperands | common/bedbug.c:231-346 | from the second operand on the recorded length is the text length; the operands come out separated by single commas, each offset wrapped around its register with balanced parentheses |
| RoundTrip.WordsOfJoin | common/bedbug.c:953-977 | tokenizing a comma-separated list gives back its pieces, and nothing after them |
| RoundTrip.OperandReadBack | common/bedbug.c:854-918 | for fields of any width: an operand's printed text is an error exactly for a register above 31, an SPR that is 0 or named and a time-base register without a name; otherwise it is read as no more than the field, and as all of it exactly when it was shown whole (SPRs and time-base registers below 1024, immediates below 65536) |
| RoundTrip.PrintedErrors | common/bedbug.c:327-342 | a printed operand list is free of errors if and only if every operand is legible (a list with an offset never is), and then each field is read as it was exactly when it was shown whole |
| RoundTrip.CutLine | common/bedbug.c:209-211 | the printed line of any word whose eight-letter mnemonic runs into its first operand is rejected as an unknown mnemonic, at every address |
| RoundTrip.IntactLine | common/bedbug.c:753-841 | an intact line is rejected if an operand is not legible, gives the printed word less its stray bits if all are readable, and another word otherwise |
| RoundTrip.TextRoundTrip | common/bedbug.c:753-841 | for every well-formed table, word and address, assembling the printed text gives back the word if and only if the word decodes and `Reassembles` holds |
| RoundTrip.UndecodedLine | common/bedbug.c:198-205 | a word without a row is shown as `.long`, which the assembler rejects as a bad opcode |
| RoundTrip.PrintedFormStable | common/bedbug.c:753-841 | whatever a line assembles to reassembles from its printed form unless its mnemonic or an operand cannot be read back |
| RoundTrip.AddressShown | common/bedbug.c:151-153 | every line starts with eight hexadecimal digits that read as its address, a colon and four blanks |
| RoundTrip.WordShown | common/bedbug.c:198-205 | a word without a row shows as `.long 0x` and eight digits that read as the word |
| RoundTrip.NumberShown | common/bedbug.c:327-340 | the text of an immediate or a displacement reads as the low sixteen bits of its field, and has no parenthesis |
| RoundTrip.RegisterShown | common/bedbug.c:293-305 | a register shows as "r" and digits that read as its number, or as 0 where rA 0 means no register |
| RoundTrip.SprShown | common/bedbug.c:490-510 | a special register shows as the first name of its number, halves exchanged, or as digits that read as that number |
| RoundTrip.TbrShown | common/bedbug.c:577-596 | 268 shows as TBL, 269 as TBU, halves exchanged, all else as question marks |
| RoundTrip.TargetShown | common/bedbug.c:263-271 | a branch field shows as a number that reads as four times the signed field, from the instruction's own address where the row is relative |
| RoundTrip.OffsetShown | common/bedbug.c:327-342 | the piece of a displacement and its base register, cut at the parenthesis, reads as the displacement and the register number |
| RoundTrip.MnemonicColumns | common/bedbug.c:209-211 | a mnemonic of up to seven letters takes eight columns |
| RoundTrip.LoadListed | common/bedbug.c:231-346 | the whole line of a load or store: mnemonic, register, displacement, base register in parentheses, each reading as its field |
| Branch.TestBranch | common/bedbug.c:1160-1214 | the BO switch on a decremented copy of CTR and a CR bit equals the architecture's bitwise test, for the BO values it lists |
| Branch.DecodeRow | common/bedbug.c:1089-1158 | the local variables after the opcode switch hold the fields and the target of the branch |
| Branch.DecodeInstruction | common/bedbug.c:1081-1158 | searching, then switching on the row's opcode, decodes exactly the branch forms of the architecture |
| Branch.ChooseAddress | common/bedbug.c:1160-1235 | taken, not taken and stepped-over branches go to the predicted address |
| Branch.FindNextAddress | common/bedbug.c:1053-1236 | computes the predicted address for all registers and both ways of stepping, and fails exactly without registers or without a row |
| Branch.RowForm | common/bedbug.c:1093-1158 | the row found for a word has a branch opcode exactly when the word is that kind of branch |
| Branch.PredictionExact | common/bedbug.c:1081-1236 | for every valid form, address and registers, the prediction is the architecture's next instruction address if and only if the branch is not taken elsewhere, or its BO is known and its register aligned |
| Branch.PredictionAlways | common/bedbug.c:1160-1228 | a conditional branch is predicted right for all aligned register contents if and only if its BO has its ignored bits zero (or it goes to the next instruction anyway) |
| Branch.Counterexample | common/bedbug.c:1160-1228 | for every other BO, registers under which the branch is taken somewhere else |
| Branch.IgnoredBitsMatter | common/bedbug.c:1160-1228 | 0x4fe00020, `bclr` with BO 31, at the program counter of any table that decodes it: stepping sets the next instruction while the machine goes to LR |
| Branch.MisalignedRegister | common/bedbug.c:1128-1152 | 0x4e800020 with LR 0x1002 and 0x4e800420 with CTR 0x1002: stepping sets 0x1002 while the machine goes to 0x1000 |
| Branch.StepOverExact | common/bedbug.c:1216-1235 | for every table, memory and registers: stepping over goes to pc + 4 on any branch form with bit 0 set, conditional and indirect ones included, and is stepping in on everything else |
| Branch.StepNeedsRow | common/bedbug.c:1081-1087 | both fail exactly at a word without a row |
| Branch.StepStraightOn | common/bedbug.c:1154-1158 | an instruction that is no branch goes to pc + 4 |
| Branch.ConditionArithmetic | common/bedbug.c:1160-1214 | the condition of a branch in terms of the digits of BO and CR |
| Branch.CountArithmetic | common/bedbug.c:1160-1214 | the count of a branch in terms of the digits of BO and of CTR |
| Branch.ConditionalStep | common/bedbug.c:1094-1110 | stepping into any `bc`: pc + 4, or four times the signed 14-bit field from pc or from 0 when the arithmetic of BO, BI, CR and CTR has it taken |
| Branch.RegisterStep | common/bedbug.c:1128-1152 | the same for `bclr` and `bcctr`, which go to LR and CTR |
| Branch.AlwaysStep | common/bedbug.c:1112-1126 | an unconditional branch goes four times its signed 24-bit field from pc or from 0 |
| Branch.AssembleThenStep | common/bedbug.c:1112-1126 | an assembled `b`, `bl`, `ba` or `bla` is stepped into where the disassembler says, stepped over to pc + 4 when it links, and that place is the target typed if and only if it is in reach |
| Branch.TypedTarget | common/bedbug.c:865-879 | of any accepted line, a branch operand shows the target that was typed if and only if it is in the field's reach |
| Branch.TypedField | common/bedbug.c:913-918 | a typed immediate is held modulo the range of its field |
| Branch.AssembleThenStepIf | common/bedbug.c:1094-1110 | an assembled `bc`, `bcl`, `bca` or `bcla` is stepped to pc + 4 when the typed BO and BI do not hold, and else to the typed target if and only if that is in reach |
| Debugger.BugContext.DoAdvance | common/cmd_bedbug.c:289-339 | sets a breakpoint at the next address and resumes, or fails and changes nothing |
| Debugger.BugContext.RunCommand | common/main.c:1302-1425 | the commands of a line run in turn, up to a Ctrl-C; the code is -1 after a Ctrl-C, a failure or no command, else 0 or 1 as one may not be repeated or all may |
| Debugger.BugContext.MainLoop | common/cmd_bedbug.c:211-257 | the loop leaves the state that the session function gives, for every list of inputs |
| Debugger.LineKeeps | common/cmd_bedbug.c:266-339 | any list of commands, whatever they return: outside a session it changes nothing; inside it keeps registers, breakpoint number and remembered command and adds at most one breakpoint, at an address one of its commands predicts from the session's registers |
| Debugger.IdleLine | common/cmd_bedbug.c:266-339 | outside a session a line changes nothing, and succeeds exactly if it has none of the debugger's commands and no other one fails |
| Debugger.LineExact | common/cmd_bedbug.c:266-339 | a line at a stop leaves the session exactly when a command before any Ctrl-C is `continue`, or a `step` or `next` whose address exists; the first such command alone calls the hooks; the code is -1 exactly when a command fails, else 1 exactly when all may be repeated |
| Debugger.TurnExact | common/cmd_bedbug.c:232-250 | one turn at a prompt, whatever comes in: what is run, recorded and remembered; Return repeats the remembered line, and an interrupt forgets it unless the turn before returned a positive code |
| Debugger.SessionExact | common/cmd_bedbug.c:211-257 | a whole session, whatever is typed: it is left exactly when some line that is run has a command that lets the program go on, and the first such command is the only one that calls the hooks |
| Debugger.ContinueOnce | common/cmd_bedbug.c:266-282 | a session with one `continue` ends at rest, clears its breakpoint, sets none and remembers nothing |
| Debugger.LoopKeeps | common/cmd_bedbug.c:211-257 | at every prompt the session is stopped with the trapped registers and a remembered line whose latest run returned a positive code, even if runs of one line differ; every command that finds it stopped finds those registers; leaving clears registers and breakpoint number |
| Debugger.HistoryInvariant | common/cmd_bedbug.c:211-339 | over any history of console lines and breakpoints: at rest between sessions, console lines change nothing, every prompt and command of every session sees its own trapped registers; at the end the debugger is at rest or at a prompt of the breakpoint that stopped it |
| Debugger.StepOnce | common/cmd_bedbug.c:289-308 | one `step`, typed or repeated with Return, sets the predicted address, or leaves the session stopped with nothing set |
| Debugger.NextOnce | common/cmd_bedbug.c:320-339 | the same for `next`, with the address that steps over subroutines |
| Debugger.SteppingSets | common/cmd_bedbug.c:289-308 | any number of steps set exactly the predicted addresses, in order |
| Debugger.SteppingFollowsMachine | common/cmd_bedbug.c:289-308 | along any machine trace, memory changing between stops and system calls, `rfi` and traps going anywhere, those addresses are the program counters of the trace if and only if every branch on the way is foreseen and every such transfer came back to the next instruction |
| Monitor.Console.AssembleLine | common/cmd_bedbug.c:144-154 | an accepted line is stored at the address, a rejected one writes nothing |
| Monitor.Console.DoAsm | common/cmd_bedbug.c:118-160 | memory gets the accepted words one after the other; the code is 1 exactly when some line was rejected |
| Monitor.Console.DoDis | common/cmd_bedbug.c:76-107 | prints a page from the given or remembered address and remembers where it ended |
| Monitor.JudgeExact | common/cmd_bedbug.c:144-154 | a line is stored exactly when the assembler accepts it |
| Monitor.LineVerdict | common/cmd_bedbug.c:134-159 | every line is assembled relative to the address its own word lands on |
| Monitor.SessionEnd | common/cmd_bedbug.c:136-158 | the session ends at the first empty line or period, and not before |
| Monitor.StoredBytes | common/cmd_bedbug.c:145-149 | byte by byte, the accepted words fill memory from the start on, big-endian and in order, and no other byte changes |
| Monitor.StoredWords | common/cmd_bedbug.c:145-149 | each accepted word is read back from its slot |
| Monitor.StoredBigEndian | common/cmd_bedbug.c:145-149 | a stored word has its four bytes at its address and after, the most significant first |
| Monitor.AssembledPage | common/cmd_bedbug.c:76-160 | `ds` over the slots of an assembly session lists the accepted words, each at its own address |
| Monitor.OmittedLength | common/cmd_bedbug.c:80-106 | without a length the remembered one is used and kept |
| Monitor.RepeatsTile | common/cmd_bedbug.c:76-107 | one `ds` of n instructions and k repeats print the page of (k + 1) n instructions from the same address, modulo 2^32 |
| Monitor.HugeLength | common/cmd_bedbug.c:100-106 | a length of 2^31 or more never prints, and the address still advances |
| TableCheck.PrependRun | include/bedbug/tables.h:56-65 | rows that pass the check, in front of a well-formed run, make a well-formed run |
| TableCheck.RowItems | include/bedbug/tables.h:56-65 | the operands of a row are those written down, in that order |
| TableCheck.FormCodes | include/bedbug/ppc.h:60-271 | the bits that each instruction form fixes, as numbers |
| PpcRows.OpcodeRowsOk | include/bedbug/tables.h:66-479 | all 206 rows are well formed and in increasing opcode order, and every part of the list is in the table |
| PpcNames.OpcodeRowsListed | include/bedbug/tables.h:66-479 | a dictionary gives every row's mnemonic that row's opcode |
| PpcNames.ListedNames | include/bedbug/tables.h:66-479 | rows in opcode order that such a dictionary knows are each the first of their name |
| Ppc.ShippedTableOk | include/bedbug/tables.h:14-582 | the shipped opcode and SPR tables are well formed and their branch rows have the architecture's formats, so the results about well-formed tables apply to them |
| Ppc.ShippedNames | include/bedbug/tables.h:66-479 | the 206 mnemonics are pairwise different |
| Ppc.ShippedRoundTrip | common/bedbug.c:753-841 | on the shipped tables, for every word and address: typing back what was printed gives the word if and only if it decodes, its mnemonic is intact, its operands are readable and it has no stray bits |
| Ppc.OrdinaryRow | common/bedbug.c:753-841 | every word of a row with at most seven letters, registers of five bits, immediates of at most sixteen and branch targets, and no bit left over, is read back at every address |
| Ppc.UnreadableRow | common/bedbug.c:854-918 | a word with an unreadable operand is rejected with an error when typed back |
| Ppc.ShippedOri | include/bedbug/tables.h:145-146 | on the shipped tables every `ori` is read back, at every address |
| Ppc.ShippedLwz | include/bedbug/tables.h:447-448 | on the shipped tables no `lwz` is |
| Ppc.LwzListed | common/bedbug.c:327-342 | every `lwz` is listed as its mnemonic, register, the low 15 bits of its displacement, and its base register in parentheses |
| Ppc.ShippedLwzListed | include/bedbug/tables.h:447-448 | so it is on the shipped tables |
| Ppc.ShippedMfspr | include/bedbug/tables.h:295-296 | on the shipped tables no `mfspr` of LR or of register 0 is |
| Ppc.ShippedSubfzeo | include/bedbug/tables.h:385-386 | on the shipped tables every `subfzeo.` comes back as an unknown mnemonic |
| Ppc.OriWord | common/bedbug.c:753-841 | 0x60830005, `ori r3,r4,5`, is read back |
| Ppc.LwzWord | common/bedbug.c:753-841 | 0x80610004, `lwz r3,4(r1)`, is not |
| Ppc.MflrWord | common/bedbug.c:753-841 | 0x7c6802a6, `mfspr` of LR, is not |
| Ppc.MfsprZeroWord | common/bedbug.c:753-841 | 0x7c6002a6, `mfspr` of register 0, is not |
| Ppc.SubfzeoWord | common/bedbug.c:753-841 | 0x7c640591, `subfzeo. r3,r4`, is an unknown mnemonic when typed back |
| Ppc.OriReadsBack | common/bedbug.c:753-841 | every word of an `ori` row, in any well-formed table with different names, is read back |
| Ppc.LwzRejected | common/bedbug.c:327-342 | no word of an `lwz` row is: the printed `d(rA)` leaves an operand without a word |
| Ppc.SubfzeoRejected | common/bedbug.c:209-211 | no word of a `subfzeo.` row is: its mnemonic is cut |
| Ppc.MfsprRejected | common/bedbug.c:526-559 | an `mfspr` of register 0 or of any named register is rejected when typed back |
| Ppc.ExampleNumbers | common/bedbug.c:490-510 | field 256 of an `mfspr` is register 8, LR, and field 0 register 0 |
| Ppc.NegativeLwz | common/bedbug.c:913-918 | in any well-formed table with different names and an `lwz` row, the line `lwz r3,-4,r1` is accepted and its 15-bit displacement field holds 0x7ffc |
| Ppc.ShippedNegative | include/bedbug/tables.h:25 | so it is on the shipped tables |
| Ppc.ShippedIgnoredBits | common/bedbug.c:1160-1228 | on the shipped tables, 0x4fe00020 steps to the next instruction while the machine goes to LR |
| Ppc.ShippedMisaligned | common/bedbug.c:1128-1152 | on the shipped tables, `bclr` and `bcctr` through 0x1002 step to 0x1002 while the machine goes to 0x1000 |
| Storage.Specs.DevStorGet | api/api_storage.c:116-177 | the descriptor, the "more" answer and the found flag, for the first and for later calls; a device that is found is described by its group and its size |
| Storage.Specs.DevStorType | api/api_storage.c:183-193 | the first group that holds the descriptor, or none |
| Storage.Specs.DevEnumStor | api/api_storage.c:205-296 | flags, cookie and result of one group's turn |
| Storage.GroupTable | api/api_storage.c:205-296 | one group's turn, case by case in terms of the slots: a first request gives slot 0 and ends the group; from slot i it gives slot i + 1 and ends the group unless a slot follows; an ended group is left alone, and a started one ended, by any other cookie |
| Storage.Specs.DevEnumReset | api/api_storage.c:298-306 | all groups not started and not ended |
| Storage.Specs.DevEnumStorage | api/api_storage.c:308-321 | the groups in order until one gives a device |
| Storage.Specs.ApiDevEnum | api/api.c:217-247 | a NULL cookie resets and asks the network first; storage cookies go on with the groups; whatever is returned is described: the network device, or a present storage device with its size |
| Storage.Specs.DevStorIsValid | api/api_storage.c:323-333 | valid exactly for a descriptor in a slot of the group whose device is present |
| Storage.Specs.DevOpenStor | api/api_storage.c:336-347 | opens exactly the valid descriptors |
| Storage.Specs.DevStorIndex | api/api_storage.c:360-370 | the slot of the descriptor in its group |
| Storage.Specs.DevReadStor | api/api_storage.c:373-390 | reads with the slot index of the descriptor, or 0 blocks |
| Storage.Located | api/api_storage.c:183-193 | a descriptor is found in its own group at its own slot |
| Storage.CallDecreases | api/api_storage.c:205-321 | with distinct descriptors and from any flags, an ended group stays ended, and a fed-back call ends with NULL or lowers the pair (unended groups, remaining slots) |
| Storage.Enumerate | api/api.c:217-247 | a client's loop ends, from any flags, with exactly the cookies of the specified run |
| Storage.FreshRunIsFirstSlots | api/api_storage.c:116-177 | a fresh run returns the network device if any and then, in group order, slot 0 of each group where it is present |
| Storage.FreshRunDistinct | api/api.c:226-246 | no cookie is returned twice |
| Storage.VisitsAllIff | api/api_storage.c:211-226 | the run visits every present device if and only if no device beyond a slot 0 is present |
| Storage.SecondDeviceMissed | api/api_storage.c:125-130 | with two present IDE devices the second is never returned |
| Storage.OpensExactly | api/api_storage.c:323-390 | a cookie opens exactly when it is a present device; it is read with the index of its one slot; any other cookie reads nothing |
| Storage.EnumeratedOpens | api/api_storage.c:336-347 | for any flags and any cookie fed in, a call returns NULL, the network device, or a storage device that opens |
| Environment.EntryEnd | api/api.c:533-538 | the inner loop finds the end of the entry, or gives up when it passes the size limit |
| Environment.EnvEnum | api/api.c:516-557 | the nested scan computes the specified next entry for every block, size and `last` |
| Environment.MatchesNames | common/cmd_nvedit.c:617-626 | `envmatch` compares names exactly, given "name" or "name=value" |
| Environment.ScanExact | api/api.c:530-554 | on a well-formed block, whatever the limit, one call gives the entry after the first of that name, NULL after the last entry, and the caller's own pointer for an unknown name or exactly when that first one ends beyond the limit |
| Environment.NextEntry | api/api.c:532-553 | with distinct names, the call after entry k gives entry k + 1 |
| Environment.ListEnvironment | api/api.c:516-557 | a client's loop visits every entry start once, in stored order |
| Environment.VisitedIsCode | api/api.c:526-554 | the walk by entry numbers is what successive calls return |
| Environment.WalkEndsIff | api/api.c:526-554 | a client's loop ends if and only if the names are distinct |
| Environment.RepeatedName | api/api.c:526-554 | with "a=1" and "a=2" the call after the second entry gives the second entry again, for ever |
| Environment.EmptyBlockNeverEnds | api/api.c:526-532 | on an empty block no call returns NULL |
| Ldr.HeaderOfBlock | common/cmd_bootldr.c:82-86 | a serialized header is read as the block's fields |
| Ldr.FlagMasks | common/cmd_bootldr.c:56-60 | the flags are the bits 0x0001, 0x0002, 0x0008, 0x0010 and 0x8000 |
| Ldr.BlockLayout | common/cmd_bootldr.c:82-104 | a block is ten bytes of little-endian address, count and flags, and then as many bytes as the count says unless ZEROFILL is set, under IGNORE as well |
| Ldr.StreamAppend | common/cmd_bootldr.c:81-105 | streams and INIT calls of two lists follow one another |
| Ldr.LoadBlock | common/cmd_bootldr.c:91-95 | memory after `memset` or `memcpy`, or unchanged for IGNORE |
| Ldr.AfterBlock | common/cmd_bootldr.c:91-95 | every byte a block covers becomes 0 or its payload byte, all others stay |
| Ldr.LoadNext | common/cmd_bootldr.c:81-105 | one turn: memory after it, where the next header stands, whether to go on, and the entry point called |
| Ldr.InitFindsBlock | common/cmd_bootldr.c:91-100 | whatever INIT routines do: one is called exactly for INIT without IGNORE, at the block's address, after the block has been loaded |
| Ldr.LdrLoad | common/cmd_bootldr.c:61-108 | on every memory on which the run is defined and ends, self-overwriting streams and INIT routines that write to memory included: final memory, where reading stopped and the INIT calls are those of the run; and for every block list whose stream stands 4 bytes into a BF561 image or at the start of any other: every byte, the INIT calls, the end of reading and EVT1 are what the list says |
| Ldr.RunBound | common/cmd_bootldr.c:81-105 | the bound on the number of blocks does not matter once the run ends within it |
| Ldr.RunMeansBlocks | common/cmd_bootldr.c:81-105 | on a serialized list whose blocks spare the unread stream, with INIT routines that leave memory alone, the run reads exactly the stream, calls the INIT entry points in order, and leaves every byte as the last covering block that is not IGNORE has it, or unchanged |
| Ldr.LeavesUnique | common/cmd_bootldr.c:91-95 | that description determines every byte |
| Ldr.ParseStream | common/cmd_bootldr.c:81-105 | a serialized block list parses to itself, whatever follows it |
| Ldr.StreamParse | common/cmd_bootldr.c:81-105 | every stream that ends is the serialization of the list it parses to |
| Ldr.DisjointIsLoadable | common/cmd_bootldr.c:91-103 | destinations clear of the whole image satisfy the loader's condition |

## Left out

- Simplified branch mnemonics (`handle_bc`), literal operands, other radices, source lines and symbols: display only, with no counterpart in the assembler; the commands pass only F_RADHEX.
- The index from a row into `operands[]` is resolved in the model, so the checks for an index out of range (`common/bedbug.c:246`, `common/bedbug.c:381`) do not occur.
- Sizes of `scratch` and `data` buffers, and lines longer than them.
- `htonl` is the identity, as on the big-endian processors the debugger runs on; characters are bytes.
- Debugger.BugContext.RunCommand: how a line splits into commands, and what other commands return, are parameters, given anew with every line; recursion through `run` and macro expansion are part of them.
- Breakpoints that nest, a debugger without `set` and `clear` hooks, and the processor-specific hooks themselves.
- `do_bedbug_stack`, which follows arbitrary memory without a bound, and the register dump.
- Whether a device is present, `get_dev`, `block_read` and the network device are parameters; its hardware address is not copied.
- Writing to devices, network calls, console, time and system-information calls of the API, and its call dispatch.
- Environment.EnvEnum: an entry without `=` that ends together with `last`, where `envmatch` reads on past both ends, counts as no match.
- Ldr.LdrLoad: runs on which C leaves `memset` or `memcpy` undefined (areas outside memory, overlapping copies) and runs that never reach a FINAL block are excluded.
- `ldr_exec`, the signature check, and the parts whose boot ROM loads the stream.
- The other commands under `common/` print, poke registers or convert small numbers.
