# TCP port scanner, sequential core

`main.go` is a concurrent TCP port scanner. Its command line gives it one
target or a comma-separated list of targets, and either a port range or a
comma-separated list of ports. For every target, a pool of goroutines dials
each port with a timeout. When banner grabbing is on, it reads up to 256
bytes from every open port. The results are folded into a per-host summary,
which is printed as text or as JSON.

This project models the deterministic logic around the network calls:

- `parseTargets`: the default target, or the target list split at every
  comma (`Scanner.ParseTargets`).
- `parsePorts`: with a port list, every comma-separated piece is trimmed and
  parsed with `strconv.Atoi`, and only values in 1..65535 are kept, in order.
  Without a list, the result is the range start..end (`Scanner.ParsePorts`,
  with its two loops as `Scanner.PortList` and `Scanner.PortRange`).
- `scanPort`: a result is built step by step from the outcome of the dial and
  the bytes the single read delivered (`Scanner.ScanPort`).
- The result-collecting loop of `scanHost` and the summary it returns
  (`Scanner.ScanHost`).
- The text line printed for each open port (`Scanner.FormatLine`).

The Go library functions these rely on are modelled in their own modules:

- `Strings`: `strings.TrimSpace`, `strings.Split` and `strings.Join`, plus
  the byte-to-string conversion.
- `Strconv`: `strconv.Atoi`, and `%d` formatting as `Itoa`.
- `Seqs`: a generic order-keeping filter, `FilterMap`, with its laws. Both
  the port-list loop and the result-collecting loop are instances of it.
- `Wrappers`: `Option`.

The loops of the source are `method`s. In the two filtering loops (the
port list and the result collection), the invariant ties the accumulated
sequence to `FilterMap` over the prefix processed so far. The counting loop
of the port range keeps element i equal to start + i. The pure helpers
are functions. Lemmas state the round trips, the examples and
the order, membership and permutation properties.

## Model

| member | source | states |
|---|---|---|
| Scanner.ParseTargets | main.go:171-176 | An empty target list gives exactly the default target. Otherwise there is one target per comma plus one, no target contains a comma, and joining the targets with commas gives the list back. |
| Scanner.ParseTargetsOfJoin | main.go:175 | Comma-free host names joined with commas are returned one by one, in order. |
| Scanner.PortOf | main.go:182-183 | A piece yields a port only when that port lies in 1..65535. |
| Scanner.PortOfDecimal | main.go:182-183 | A number written in decimal is kept as itself exactly when it is in 1..65535, and is dropped otherwise. |
| Scanner.PortOfPadded | main.go:182 | White space around a piece does not change the port it names. |
| Scanner.ValidPorts | main.go:180-187 | There are no more ports than pieces, and every port is in 1..65535. |
| Scanner.ValidPortsAppend | main.go:181-186 | The ports of two lists of pieces, one after the other, are the ports of the first list followed by those of the second: order and duplicates are kept. |
| Scanner.ValidPortsMembership | main.go:181-185 | A port is listed exactly when some piece names it. |
| Scanner.ValidPortsOfDecimals | main.go:181-185 | A list of numbers written in decimal, in any order, gives exactly the in-range numbers, in their order. |
| Scanner.ValidPortsOfSortedDecimals | main.go:181-185 | In-range numbers written in decimal, followed by out-of-range ones, give exactly the in-range numbers. |
| Scanner.PortOfSigned | main.go:182-183 | A leading '+' is accepted: "+80" names port 80. A leading '-' makes every non-zero number name no port. |
| Scanner.PortOfLeadingZeros | main.go:182-183 | Leading zeros are accepted: "0080" names port 80. |
| Scanner.PortOfBlank | main.go:182-183 | An empty or all-white-space piece names no port. |
| Scanner.PortOfNonDigit | main.go:182-183 | A piece whose trimmed form contains a character that is neither a digit nor a leading sign names no port: "abc", "8 0" and "+-1" are dropped. |
| Scanner.MixedList | main.go:181-185 | Seven pieces in this order give exactly the four ports a, b, c, d, in order: a port, a padded port, a word, an empty piece, a signed port, a zero-padded port, and a number out of range. |
| Scanner.MixedFront | main.go:182-183 | A port in decimal names itself, with or without spaces around it. "abc" and the empty piece name no port. |
| Scanner.MixedBack | main.go:182-183 | A port behind a '+' or behind "00" names itself, and a decimal number out of range names no port. |
| Scanner.MixedSplitExample | main.go:181 | "22, 80 ,abc,,+443,0080,65536" splits into its seven untrimmed pieces, the empty one included. |
| Scanner.MixedListExample | main.go:178-187 | The list "22, 80 ,abc,,+443,0080,65536" gives the ports 22, 80, 443 and 80. |
| Scanner.SplitExample | main.go:181 | "22,80,443,99999,-1" splits into its five pieces. |
| Scanner.ParsePortsExample | main.go:178-187 | The list "22,80,443,99999,-1" gives the ports 22, 80 and 443. |
| Scanner.ParsePorts | main.go:178-195 | With a port list: the valid ports of its comma pieces, in order, at most one per comma plus one. Without one: exactly start..end, strictly ascending, with element i equal to start + i. Every port is in 1..65535 when the list is given or when start..end lies in that range. The range case requires that the slice capacity end - start + 1 is not negative. |
| Scanner.PortList | main.go:179-187 | The list loop computes exactly the valid ports of the pieces. |
| Scanner.PortRange | main.go:190-194 | The counting loop gives end - start + 1 ports, with element i equal to start + i. |
| Scanner.ScanPort | main.go:142-168 | The port is unchanged. The result is open exactly when the dial succeeded. The banner is the trimmed bytes when the dial succeeded, banner grabbing is on and at least one byte was read; otherwise it is empty. A banner has no white space at its ends and is at most 256 characters long. |
| Scanner.OpenOnly | main.go:128-130 | The filter keeps a result unchanged exactly when its state is open. |
| Scanner.ScanHost | main.go:126-139 | The reported results are the open results, in arrival order. The open count is their number, which is at most the number of results. The scanned count is the number of ports submitted. The summary carries the host and the duration passed in. One result per port means no more open than scanned ports. No results means zero open ports and an empty list. |
| Scanner.ReportedIffOpen | main.go:127-131 | A result is reported exactly when it arrived and is open. |
| Scanner.ReportedPortsSubmitted | main.go:96-131 | When the results carry the submitted ports, every reported result is open and carries a submitted port. |
| Scanner.ArrivalOrderIrrelevant | main.go:92-131 | Delivering the results in another order changes only the order of the reported results: they are the same results, the same number of times, and their count is the same. |
| Scanner.FormatLine | main.go:216-219 | The line starts with the port in decimal, which Atoi reads back, followed by "/tcp " and the state name. After the state name there is nothing when there is no banner, and exactly " \| " and the banner otherwise. |
| Scanner.FormatLineBar | main.go:216-219 | The line contains a '\|' exactly when the result has a banner. |
| Strings.StringOfBytes | main.go:163 | The string has one character per byte, and each character's code is that byte. |
| Strings.LeadingSpaces | main.go:163 | The length of the white-space prefix: everything before it is white space, and the next character is not. |
| Strings.TrailingSpacesStart | main.go:163 | Where the white-space suffix begins: everything from there is white space, and the character before it is not. |
| Strings.TrimSpace | main.go:163 | The result is no longer than the input, and a non-empty result has no white space at either end. |
| Strings.TrimSpaceSlice | main.go:163 | The result is a contiguous slice of the input, with only white space before and after it. |
| Strings.TrimSpaceEmpty | main.go:163 | The result is empty exactly when the input is all white space. |
| Strings.TrimSpaceUnique | main.go:163 | Any slice with only white space around it and none at its own ends is the trimmed string. |
| Strings.TrimSpaceIdempotent | main.go:163 | Trimming twice is the same as trimming once. |
| Strings.TrimSpaceWithoutSpaces | main.go:182 | A string without white space is left unchanged. |
| Strings.TrimSpacePadded | main.go:182 | Adding white space around a string does not change its trimmed form. |
| Strings.TrimSpaceBannerExample | main.go:163 | "SSH-2.0-OpenSSH_8.9\r\n" trims to "SSH-2.0-OpenSSH_8.9". |
| Strings.Split | main.go:175 | There is one piece per separator plus one, and no piece contains the separator. |
| Strings.SplitCons | main.go:175 | A leading separator starts a new, empty piece; any other leading character extends the first piece. |
| Strings.JoinSplit | main.go:175 | Joining the pieces with the separator gives back the string that was split. |
| Strings.SplitWithoutSeparator | main.go:175 | A string without the separator is a single piece. |
| Strings.SplitFirstPiece | main.go:175 | A separator-free prefix followed by the separator becomes the first piece. |
| Strings.SplitJoin | main.go:175 | Splitting the join of a non-empty list of separator-free pieces gives the pieces back. |
| Strconv.Itoa | main.go:216 | The result is non-empty and consists of digits, except for a leading '-', which is present exactly when the number is negative. |
| Strconv.NatDigitsValue | main.go:216 | The printed digits denote the number, and only 0 is printed with a leading '0'. |
| Strconv.AtoiItoa | main.go:182 | Atoi reads back every number that %d prints. |
| Strconv.ItoaExamples | main.go:216 | The decimal forms of 22, 80, 443, 65536, 99999 and -1. |
| Strconv.AtoiRejectsNonDigit | main.go:182 | Atoi fails on a string with a character that is neither a digit nor a sign at the front followed by more characters. This includes a lone sign. |
| Strconv.AtoiSigned | main.go:182 | Atoi accepts a '+' or '-' in front of the digits, with the matching sign on the value. |
| Strconv.DecimalValueLeadingZero | main.go:182 | A leading '0' does not change the value of a digit string. |
| Strconv.DecimalValueLeadingZeros | main.go:182 | Any number of leading zeros leave the value of a digit string unchanged. |
| Strconv.AtoiLeadingZeros | main.go:182 | Atoi accepts leading zeros in front of the digits. |
| Seqs.FilterMap | main.go:181-186 | The filter produces at most one element per input element. |
| Seqs.FilterMapPrefix | main.go:181-186 | Processing one more element adds exactly what that element contributes, which is the step both loops take. |
| Seqs.FilterMapAppend | main.go:181-186 | The filter of s + t is the filter of s followed by the filter of t, so order is kept. |
| Seqs.FilterMapMembership | main.go:127-131 | A value is in the result exactly when some element maps to it. |
| Seqs.FilterMapAll | main.go:183-184 | When the mapping only produces values with a property, every element of the result has it. |
| Seqs.FilterMapPointwise | main.go:181-186 | Two filters that agree element by element produce the same result. |
| Seqs.FilterMapKeepAll | main.go:181-186 | A filter that keeps every element unchanged returns its input. |
| Seqs.FilterMapDropAll | main.go:181-186 | When no element is kept, the result is empty. |
| Seqs.FilterCount | main.go:127-131 | A pure filter keeps every copy of a value it accepts and none of a value it rejects. |
| Seqs.FilterPermutation | main.go:127-131 | A pure filter maps permutations to permutations. |

## Left out

- Concurrency: the worker pool, the task, result and progress channels and the WaitGroup (main.go:84-124) are not modelled. `ScanHost` takes the results as a sequence in the order they arrive. `ArrivalOrderIrrelevant` states what a different order changes.
- Networking: `net.DialTimeout`, `conn.Close`, `SetReadDeadline` and `conn.Read` are inputs to `ScanPort`. `dialed` is the outcome of the dial, and `received` is the bytes the single read returned. The requirement `|received| <= 256` is the size of the read buffer. The read error is ignored, as in the source.
- Host and timeout: `scanPort`'s host, timeout and address formatting (main.go:143) only serve the dial, so they are not parameters.
- Time: `time.Now` and `time.Since` are not modelled. The duration is an integer passed to `ScanHost`.
- main: the command-line flags, the range check with its `os.Exit` (main.go:64-67) and the per-target loop (main.go:75-78) are not modelled.
- Output: printing, the JSON encoding, the summary header lines and the progress line with `len(results)` (main.go:115, 197-214) are not modelled. Only the line printed for one open port is modelled, as `FormatLine`.
- The port state is a two-value datatype. `StateName` gives the strings "open" and "closed" that the source stores.
- Strings.TrimSpace: trims only the ASCII white space `\t \n \v \f \r` and space. Go also trims multi-byte Unicode white space.
- Strings.StringOfBytes: maps each byte to the character with that code. Go keeps the bytes as they are and decodes them as UTF-8 only when TrimSpace looks at runes, so the two differ only on non-ASCII white space.
- Strconv.Atoi: uses unbounded integers, so it does not reject values outside the 64-bit range as Go does. Such values lie outside 1..65535, so `PortOf` drops them either way.
- Strconv.Atoi: has no contract of its own. Which strings it accepts is stated by lemmas:
  - `AtoiItoa`, `AtoiSigned` and `AtoiLeadingZeros` cover the accepted forms: plain digits, a sign in front of them, and leading zeros.
  - `AtoiRejectsNonDigit` and `PortOfBlank` cover the rejected ones: any other character, and pieces that are empty or all white space.
- Integer width: `start`, `end` and the port numbers are unbounded. The overflow of `end - start + 1` for extreme 64-bit values is not modelled.
- Scanner.ParsePorts: requires `end - start + 1 >= 0` in the range case. Go's `make` panics on a negative capacity, and the program's own range check excludes that case.
- An empty port list in Go is a nil slice. It is the empty sequence here; the two print the same.
