# L2Market core, modelled in Dafny

L2Market is a Lineage II market tracker. It receives the game's network
packets, in hex, from the game processes it is attached to. It decodes the
three market packets (the commission-house list, the private-store search
page and the world-exchange list) and keeps one table of listings per
market. A listing expires once it has gone unseen for its market's lifetime.
The tracker shows the listings as rows in a window, checks them against the
user's tracking rules and can buy a match automatically. This project models
that core and proves what it does. The modules follow the repository's files:

- **Packets.**
  - `Bytes` holds the little-endian integers and the `Reader` class, which
    stands for the .NET `BinaryReader` over a `MemoryStream`.
  - `Utf16` holds .NET strings as UTF-16 code units and the three text
    encodings.
  - `ItemInfos` holds the mask-driven item record shared by two packets.
  - `CommissionPacket`, `PrivateStorePacket` and `WorldExchangePacket` are
    the three market packets.
  - `UserInfoEntity` is the fixed-layout UserInfo packet and its writer.
    `UserInfoPacket` is the component-based UserInfo packet, whose mask bits
    select its components.
  - Each decoder is a method over the reader, proved equal to a function on
    the unread bytes. Encoders for the same layouts give the round trips.
- **Hex and dispatch.**
  - `PacketHex` is `PacketHexHelper.ToHex` over the command objects.
  - `PacketParser` is the hex-to-bytes conversion, the routing of a packet
    by id, direction and extended id, and the service's running flag.
- **Settings and profiles.**
  - `IniConfig` is the INI settings file: parsing, writing, and the round
    trip from writing to reading.
  - `Profiles` is the player profiles, one file per player, with the
    file-name sanitising and the save/load round trip.
  - `Text` holds the .NET string operations both formats use.
- **Market trackers.**
  - `PrivateStoreService`, `CommissionService` and `WorldExchangeService`
    are classes over their dictionaries and indexes.
  - Each has its update, its expiry cleanup, its queries and its
    statistics.
  - Each class invariant (`Valid`) states how the indexes relate to the
    stored listings.
  - `MarketManagerService` combines the three trackers.
  - `MarketCommon` holds what they share.
- **Tracking and buying.**
  - `TrackingRules` is the rule object.
  - `TrackingService` is the rule table and the check of a batch of
    listings against it.
  - `AutoBuyService` is the purchase budget.
  - `MarketQueryService` is the query timers, the rules per market and the
    command sequence of one query.
- **Connections.**
  - `ConnectionManagement` is the list of connections to game processes.
  - `ConnectionEventRouting` routes pipe data to a connection's bus.
  - `MultiProcessMonitor` is the selection logic of the process monitor.
- **Display.**
  - `CodeTables` holds the code-to-name switches and `BodyParts` the
    body-slot mask names.
  - `CommissionDecoders`, `StoreDecoders` and `MarketDecoders` are the
    decoders and formatters.
  - `MarketItemView` is the row a window shows for a listing
    (`MarketItemViewModel`).

Modelling conventions:

- **Time.** DateTime and TimeSpan values are counts of 100 ns ticks. The
  current time is always a parameter.
- **Strings.** Binary strings are sequences of UTF-16 code units, so lone
  surrogates and their replacement by U+FFFD are modelled. Text formats
  such as INI files, profiles and display texts use Dafny strings.
- **Integer width.** Fixed-width integers are subset types with their
  ranges. Where the source relies on unchecked arithmetic, the wrap-around
  is written out (`Wrap32`, `Wrap64`).
- **Bit masks.** A 64-bit body-slot mask is the set of the positions of its
  one bits.
- **Floating point.** Float and double fields that are only copied are kept
  as their bit patterns.
- **Packet reads.** A decoder that the source writes over a reader is a
  method over the `Reader` class. Its `ensures` ties the result and the new
  stream position to a function on the unread bytes. The properties are
  proved about that function.
- **Mutable state.** The services are classes. A dictionary becomes a `map`
  field, a list a `seq` field. Each method states its whole new state.
- **Where the code decides.** Where a description of a component and its
  code differ, the model follows the code. One example: `UserInfoPacket` does
  not skip a component whose size field claims more bytes than remain.
  Only the size field is consumed and decoding goes on (`OpaqueCutShort`).
  Another: the pipe event is routed by the process id the router reads
  from it, modelled as an optional field.

## Model

| member | source | states |
|---|---|---|
| Bytes.Wrap32 | L2Market.Core/Services/TrackingService.cs:131 | unchecked `int` arithmetic: the result is the 32-bit value congruent to the exact one modulo 2^32 |
| Bytes.Wrap64 | L2Market.Core/Services/AutoBuyService.cs:60 | unchecked `long` arithmetic: the result is the 64-bit value congruent to the exact one modulo 2^64 |
| Bytes.TakeWord | L2Market.Domain/Entities/ExPrivateStoreSearchItemPacket/ExPrivateStoreSearchItemPacket.cs:40-42 | a fixed-width little-endian read succeeds exactly when enough bytes remain, yields a value below 256^w and leaves the bytes after it |
| Bytes.TakeAtMost | L2Market.Domain/Entities/ExPrivateStoreSearchItemPacket/ExPrivateStoreSearchItemPacket.cs:283 | `ReadBytes(n)` never fails: it yields the first min(n, remaining) bytes |
| Bytes.FromToLE | L2Market.Domain/Entities/UserInfoPacket/UserInfoPacket.cs:39 | writing a value in w little-endian bytes and reading it back gives the value |
| Bytes.ToFromLE | L2Market.Domain/Entities/UserInfoPacket/UserInfoPacket.cs:39 | reading w bytes and writing the value back gives the same bytes |
| Bytes.TakeWordShort | L2Market.Domain/Entities/ExPrivateStoreSearchItemPacket/ExPrivateStoreSearchItemPacket.cs:42 | a stream shorter than the word has no such word (end of stream) |
| Bytes.TakeInt32Of | L2Market.Domain/Entities/ExPrivateStoreSearchItemPacket/ExPrivateStoreSearchItemPacket.cs:42 | `ReadInt32` reads back the four bytes of any signed value, leaving what follows |
| Bytes.TakeInt64Of | L2Market.Domain/Entities/ExPrivateStoreSearchItemPacket/ExPrivateStoreSearchItemPacket.cs:74 | `ReadInt64` reads back the eight bytes of any signed value |
| Bytes.TakeUInt64Of | L2Market.Domain/Entities/ExPrivateStoreSearchItemPacket/ExPrivateStoreSearchItemPacket.cs:109 | `ReadUInt64` reads back the eight bytes of any unsigned value |
| Bytes.TakeUInt16Of | L2Market.Domain/Entities/ExPrivateStoreSearchItemPacket/ExPrivateStoreSearchItemPacket.cs:101 | `ReadUInt16` reads back the two bytes of any unsigned value |
| Bytes.TakeInt16Of | L2Market.Domain/Entities/ExPrivateStoreSearchItemPacket/ExPrivateStoreSearchItemPacket.cs:164 | `ReadInt16` reads back the two bytes of any signed value |
| Bytes.TakeUInt32Of | L2Market.Domain/Entities/UserInfoPacket/UserInfoPacket.cs:39 | `ReadUInt32` reads back the four bytes of any unsigned value |
| Bytes.TakeByteOf | L2Market.Domain/Entities/ExPrivateStoreSearchItemPacket/ExPrivateStoreSearchItemPacket.cs:40 | `ReadByte` reads back any byte |
| Bytes.RepeatCount | L2Market.Domain/Entities/ExResponseCommissionListPacket/ExResponseCommissionListPacket.cs:67-78 | a counted read loop either adds one value per remaining step or fails at a step it still had to run |
| Bytes.RepeatOfChain | L2Market.Domain/Entities/ExResponseCommissionListPacket/ExResponseCommissionListPacket.cs:67-78 | over a chain of successful reads the counted loop collects exactly the chain's values |
| Bytes.RepeatUntilStep | L2Market.Domain/Entities/ExPrivateStoreSearchItemPacket/ExPrivateStoreSearchItemPacket.cs:49-62 | one step of the read-until-failure loop: a failed read ends it keeping what was read, a successful one moves on |
| Bytes.RepeatUntilBound | L2Market.Domain/Entities/ExPrivateStoreSearchItemPacket/ExPrivateStoreSearchItemPacket.cs:49-62 | the read-until-failure loop keeps its earlier values and adds at most one per remaining step |
| Bytes.RepeatUntilOfChain | L2Market.Domain/Entities/ExPrivateStoreSearchItemPacket/ExPrivateStoreSearchItemPacket.cs:49-62 | over a chain of reads the loop collects the whole chain, stopping when steps run out or the next read fails |
| Bytes.Reader.constructor | L2Market.Domain/Entities/ExPrivateStoreSearchItemPacket/ExPrivateStoreSearchItemPacket.cs:36-37 | a reader over a byte array starts at position 0 with everything unread |
| Bytes.Reader.ReadByte | L2Market.Domain/Entities/ExPrivateStoreSearchItemPacket/ExPrivateStoreSearchItemPacket.cs:40 | the byte read and the new unread suffix are those of `TakeByte`; at end of stream the reader is left at its end |
| Bytes.Reader.ReadUInt16 | L2Market.Domain/Entities/ExPrivateStoreSearchItemPacket/ExPrivateStoreSearchItemPacket.cs:101 | as `TakeUInt16` on the unread suffix, which advances by two bytes or to the end |
| Bytes.Reader.ReadInt16 | L2Market.Domain/Entities/ExPrivateStoreSearchItemPacket/ExPrivateStoreSearchItemPacket.cs:164 | as `TakeInt16` on the unread suffix |
| Bytes.Reader.ReadUInt32 | L2Market.Domain/Entities/UserInfoPacket/UserInfoPacket.cs:39 | as `TakeUInt32` on the unread suffix |
| Bytes.Reader.ReadInt32 | L2Market.Domain/Entities/ExPrivateStoreSearchItemPacket/ExPrivateStoreSearchItemPacket.cs:42 | as `TakeInt32` on the unread suffix |
| Bytes.Reader.ReadUInt64 | L2Market.Domain/Entities/ExPrivateStoreSearchItemPacket/ExPrivateStoreSearchItemPacket.cs:109 | as `TakeUInt64` on the unread suffix |
| Bytes.Reader.ReadInt64 | L2Market.Domain/Entities/ExPrivateStoreSearchItemPacket/ExPrivateStoreSearchItemPacket.cs:74 | as `TakeInt64` on the unread suffix |
| Bytes.Reader.ReadBytes | L2Market.Domain/Entities/ExPrivateStoreSearchItemPacket/ExPrivateStoreSearchItemPacket.cs:283 | yields at most n bytes, never fails, and advances past exactly what it yields |
| Text.Trim | L2Market.Core/Configuration/IniConfigurationService.cs:95 | `Trim` leaves text with no whitespace at either end, never longer than the input |
| Text.TrimStart | L2Market.Core/Configuration/IniConfigurationService.cs:95 | leading trim drops exactly a whitespace prefix and leaves a suffix that does not start with whitespace |
| Text.TrimEnd | L2Market.Core/Configuration/IniConfigurationService.cs:95 | trailing trim drops exactly a whitespace suffix and leaves a prefix that does not end with whitespace |
| Text.TrimOfTrimmed | L2Market.Core/Configuration/IniConfigurationService.cs:108-109 | text without whitespace at its ends is its own trim |
| Text.TrimIdempotent | L2Market.Core/Configuration/IniConfigurationService.cs:95 | trimming twice is trimming once |
| Text.TrimEmpty | L2Market.Core/Configuration/IniConfigurationService.cs:96 | a line trims to nothing exactly when it is all whitespace |
| Text.IndexOf | L2Market.Core/Configuration/IniConfigurationService.cs:105 | `IndexOf` gives the first position holding the character, or none when no position holds it |
| Text.IndexOfJoined | L2Market.Core/Configuration/IniConfigurationService.cs:105 | in `key=value` with no `=` in the key, the first `=` is at the key's length |
| Text.ParseBool | L2Market.Core/Configuration/IniConfigurationService.cs:181 | `bool.TryParse` accepts only a four- or five-character word ("true"/"false" in any case) |
| Text.BoolRoundTrip | L2Market.Core/Configuration/IniConfigurationService.cs:227 | a printed boolean ("True"/"False") parses back to itself and has no surrounding whitespace |
| Text.ParseInt32 | L2Market.Core/Configuration/IniConfigurationService.cs:141 | `int.TryParse` accepts only non-empty text |
| Text.IntRoundTrip | L2Market.Core/Configuration/IniConfigurationService.cs:216 | a printed 32-bit integer parses back to itself |
| Text.IntTextInjective | L2Market.Domain/Entities/ExResponseCommissionListPacket/CommissionDecoders.cs:67 | different 32-bit integers print as different text |
| Text.IntTextPlain | L2Market.Core/Configuration/IniConfigurationService.cs:216 | a printed integer holds only a sign and digits: no whitespace, no line break |
| Text.MissingFirst | L2Market.Domain/Models/MarketItemViewModel.cs:377 | text lacking the first character of a pattern does not contain the pattern |
| Text.ContainsAfter | L2Market.Domain/Models/MarketItemViewModel.cs:375 | a prefix without the pattern's first character does not change whether `Contains` finds the pattern |
| Text.ContainsOnlyAtStart | L2Market.Domain/Models/MarketItemViewModel.cs:428 | when the pattern's first character occurs only at the head, `Contains` holds exactly for a prefix match |
| Text.SplitOn | L2Market.Core/Configuration/IniConfigurationService.cs:90 | `Split(c)` gives at least one piece and no piece contains the separator |
| Text.JoinOfSplit | L2Market.Core/Configuration/IniConfigurationService.cs:236 | joining the pieces of a split with the separator gives the text back |
| Text.SplitOfJoin | L2Market.Core/Configuration/IniConfigurationService.cs:236 | splitting a join of separator-free pieces gives the pieces back |
| Text.NonEmpty | L2Market.Core/Configuration/IniConfigurationService.cs:90 | `RemoveEmptyEntries` keeps no empty piece and never adds one |
| Text.NonEmptyAppend | L2Market.Core/Configuration/IniConfigurationService.cs:90 | removing empty pieces from a concatenation removes them from each part |
| Text.NonEmptyKeeps | L2Market.Core/Configuration/IniConfigurationService.cs:90 | a list without empty pieces is kept as it is |
| Text.LineLength | L2Market.Core/Services/ProfileService.cs:89 | the first line ends at the first CR or LF, or at the end of the text |
| Text.ReadLines | L2Market.Core/Services/ProfileService.cs:89 | `File.ReadAllLines` yields lines holding no CR or LF |
| Text.ReadWrittenLines | L2Market.Core/Services/ProfileService.cs:46-55 | lines written with `AppendLine` and read with `ReadAllLines` come back unchanged |
| Utf16.Scrub | L2Market.Domain/Entities/UserInfoPacket.cs:59 | replacing lone surrogates by U+FFFD keeps the number of code units |
| Utf16.ScrubWellFormed | L2Market.Domain/Entities/UserInfoPacket.cs:59 | after the replacement no lone surrogate is left |
| Utf16.ScrubOfWellFormed | L2Market.Domain/Entities/UserInfoPacket.cs:59 | well-formed text is not changed by the replacement |
| Utf16.ScrubIdempotent | L2Market.Domain/Entities/UserInfoPacket.cs:59 | replacing twice is replacing once |
| Utf16.GetString | L2Market.Domain/Entities/ExPrivateStoreSearchItemPacket/ExPrivateStoreSearchItemPacket.cs:284 | `Encoding.Unicode.GetString` yields one code unit per byte pair, rounding an odd last byte up to one more unit |
| Utf16.UnicodeBytes | L2Market.Domain/Entities/UserInfoPacket.cs:59 | `Encoding.Unicode.GetBytes` writes two bytes per code unit |
| Utf16.GetStringOfUnicodeBytes | L2Market.Domain/Entities/UserInfoPacket.cs:37 | decoding the UTF-16LE bytes of a text gives the text back, lone surrogates replaced |
| Utf16.Scalars | L2Market.Domain/Utils/PacketHexHelper.cs:163 | every code point read from the units is a valid Unicode scalar or U+FFFD, below 0x110000 |
| Utf16.Utf8Of | L2Market.Domain/Utils/PacketHexHelper.cs:163 | one code point takes one to four UTF-8 bytes |
| Utf16.AsciiBytes | L2Market.Domain/Utils/PacketHexHelper.cs:57 | `Encoding.ASCII` writes one byte per UTF-16 code unit, every byte below 0x80: a unit below 0x80 as itself, any other unit as '?', so a surrogate pair gives two '?' |
| Utf16.AsciiOfAscii | L2Market.Domain/Utils/PacketHexHelper.cs:57 | text of ASCII units is written unchanged |
| Utf16.AsciiSurrogatePair | L2Market.Domain/Utils/PacketHexHelper.cs:175 | U+1F600, the units D83D DE00, is written as "??" |
| Utf16.TrimEndNul | L2Market.Domain/Entities/UserInfoPacket/UserInfoPacket.cs:78 | `TrimEnd('\0')` drops exactly the trailing NULs and leaves a prefix not ending in NUL |
| MarketCommon.FirstIndex | L2Market.Core/Services/PrivateStoreService.cs:50 | the index of a key's first occurrence: it holds the key and no earlier index does |
| MarketCommon.FirstIndexPrefix | L2Market.Core/Services/PrivateStoreService.cs:50 | a key of a prefix first occurs in the whole input where it first occurs in the prefix |
| MarketCommon.FirstOccurrences | L2Market.Core/Services/PrivateStoreService.cs:50 | `GroupBy` visits each distinct key once, exactly the keys of the input, in the order of their first occurrence in the input |
| MarketCommon.IndexWithout | L2Market.Core/Services/PrivateStoreService.cs:102-107 | removing a key from an item id's set drops only that key, and drops the id when its set empties; other ids are untouched |
| MarketCommon.IndexWith | L2Market.Core/Services/PrivateStoreService.cs:121 | adding a key to an item id's set creates the set when missing and leaves the other ids untouched |
| MarketCommon.SetMin | L2Market.Core/Services/PrivateStoreService.cs:461 | `Min` is one of the prices and no price is below it |
| MarketCommon.SetMax | L2Market.Core/Services/PrivateStoreService.cs:462 | `Max` is one of the prices and no price is above it |
| MarketCommon.ValuesNoMore | L2Market.Core/Services/PrivateStoreService.cs:20 | a dictionary holds no more distinct values than keys |
| CodeTables.Codes | L2Market.Core/Services/MarketDecoders.cs:18-26 | the codes a switch lists, in order, one per arm |
| CodeTables.ToMap | L2Market.Domain/Entities/ExResponseCommissionListPacket/CommissionDecoders.cs:97-105 | the dictionary initialiser holds exactly the listed codes, each with its listed name |
| CodeTables.ToMapDecodes | L2Market.Domain/Entities/ExResponseCommissionListPacket/CommissionDecoders.cs:107 | `TryGetValue` on the dictionary and the switch give the same name for every listed code |
| CodeTables.KnownIffListed | L2Market.Core/Services/MarketDecoders.cs:18-26 | a code has an arm exactly when it is among the listed codes |
| CodeTables.Unknown | L2Market.Core/Services/MarketDecoders.cs:25 | the text of an unlisted code starts with the fallback prefix |
| CodeTables.Decode | L2Market.Core/Services/MarketDecoders.cs:18-26 | a listed code gives a name listed for it; any other code gives the fallback text with the code |
| CodeTables.DecodeAt | L2Market.Core/Services/MarketDecoders.cs:18-26 | with distinct codes, each arm's code gives exactly that arm's name |
| CodeTables.DecodeInjective | L2Market.Core/Services/MarketDecoders.cs:18-26 | with distinct codes and names that cannot pass for fallback text, different codes decode to different texts |
| CodeTables.Mismatch | L2Market.Core/Services/MarketDecoders.cs:25 | a name that differs from the fallback prefix somewhere within it cannot be mistaken for fallback text |
| BodyParts.Unsigned64 | L2Market.Domain/Entities/ExResponseCommissionListPacket/CommissionDecoders.cs:34 | the bits of a `long` read as an unsigned value below 2^64 |
| BodyParts.NonzeroHasBit | L2Market.Domain/Entities/ExResponseCommissionListPacket/CommissionDecoders.cs:34 | a nonzero slot value has at least one bit set |
| BodyParts.BitsNoLarger | L2Market.Domain/Entities/ExResponseCommissionListPacket/CommissionDecoders.cs:34 | a value whose bits all lie within another's is no larger than it |
| BodyParts.DescendingEverywhere | L2Market.Domain/Entities/ExResponseCommissionListPacket/CommissionDecoders.cs:32 | in `OrderByDescending` order each value exceeds every later one |
| BodyParts.GreedyTakesFitting | L2Market.Domain/Entities/ExResponseCommissionListPacket/CommissionDecoders.cs:32-40 | every slot the walk takes is a nonzero member whose bits all lie in the input |
| BodyParts.GreedyDisjoint | L2Market.Domain/Entities/ExResponseCommissionListPacket/CommissionDecoders.cs:35-38 | because taken bits are cleared, no two slots taken share a bit |
| BodyParts.GreedyDescending | L2Market.Domain/Entities/ExResponseCommissionListPacket/CommissionDecoders.cs:32 | the taken names come out in descending value order |
| BodyParts.GreedyEmptyIff | L2Market.Domain/Entities/ExResponseCommissionListPacket/CommissionDecoders.cs:42-49 | the walk takes nothing exactly when no nonzero member fits the input |
| BodyParts.LeftoverWithin | L2Market.Domain/Entities/ExResponseCommissionListPacket/CommissionDecoders.cs:38 | the bits left over are a subset of the input's bits |
| BodyParts.LeftoverHoldsNoMember | L2Market.Domain/Entities/ExResponseCommissionListPacket/CommissionDecoders.cs:32-40 | the walk is maximal: no nonzero member fits what is left over |
| BodyParts.GreedySameValues | L2Market.Domain/Entities/ExPrivateStoreSearchItemPacket/StoreDecoders.cs:38-51 | two member tables with the same values in the same order take the same values from every input |
| BodyParts.GreedyAfterLarger | L2Market.Domain/Entities/ExResponseCommissionListPacket/CommissionDecoders.cs:32-40 | members larger than the input never fit, so the walk passes them by |
| BodyParts.ExactName | L2Market.Domain/Entities/ExResponseCommissionListPacket/CommissionDecoders.cs:20-26 | an exact member is found exactly when some member has the input's value, and its name is that member's |
| BodyParts.NoExactBetween | L2Market.Domain/Entities/ExResponseCommissionListPacket/CommissionDecoders.cs:20-26 | in a descending table a value strictly between two neighbouring members has no exact member |
| BodyParts.SameValuesSameExact | L2Market.Domain/Entities/ExPrivateStoreSearchItemPacket/StoreDecoders.cs:25-31 | tables with the same values both find an exact member or both do not |
| BodyParts.HexText | L2Market.Domain/Entities/ExResponseCommissionListPacket/CommissionDecoders.cs:48 | `{value:X}` is a non-empty run of uppercase hexadecimal digits |
| BodyParts.DecodeF | L2Market.Domain/Entities/ExResponseCommissionListPacket/CommissionDecoders.cs:15-49 | a value some member equals reads as that member's name; a value no member equals and no nonzero member fits reads as "UNKNOWN_SLOT(0x…)" |
| BodyParts.DecodedByWalk | L2Market.Domain/Entities/ExResponseCommissionListPacket/CommissionDecoders.cs:42-45 | with no exact member, the text is the taken names joined by the " bar " separator whenever the walk takes any |
| BodyParts.UnknownIff | L2Market.Domain/Entities/ExResponseCommissionListPacket/CommissionDecoders.cs:42-49 | with no exact member, the text is UNKNOWN_SLOT exactly when no nonzero member fits the input |
| BodyParts.FindExact | L2Market.Domain/Entities/ExResponseCommissionListPacket/CommissionDecoders.cs:20-26 | the exact-match loop returns the first member whose value equals the input, as `ExactName` defines it |
| BodyParts.Decompose | L2Market.Domain/Entities/ExResponseCommissionListPacket/CommissionDecoders.cs:29-40 | the descending loop collects the names of the greedy walk and leaves its leftover bits |
| BodyParts.DecodeBodyPart | L2Market.Domain/Entities/ExResponseCommissionListPacket/CommissionDecoders.cs:15-54 | the method's text is the decoding function's text: exact name, joined names, or UNKNOWN_SLOT |
| ItemInfos.Lookup | L2Market.Core/Services/PrivateStoreService.cs:442-443 | `ContainsKey` holds exactly when some entry has the key, and the value read is one stored under it |
| ItemInfos.ReadPrefix | L2Market.Domain/Entities/ExResponseCommissionListPacket/ExResponseCommissionListPacket.cs:113-127 | the 15 fixed fields are read as the prefix function defines them, and the reader advances by exactly what it consumed |
| ItemInfos.ReadAugmentation | L2Market.Domain/Entities/ExResponseCommissionListPacket/ExResponseCommissionListPacket.cs:147-162 | with the augmentation bit set, two int32 options are read into option1/option2; the reader advances by what was consumed |
| ItemInfos.ReadElemental | L2Market.Domain/Entities/ExResponseCommissionListPacket/ExResponseCommissionListPacket.cs:165-187 | with the elemental bit set, attack type and power are read and the six defences are read and dropped |
| ItemInfos.ReadInt32s | L2Market.Domain/Entities/ExResponseCommissionListPacket/ExResponseCommissionListPacket.cs:205-217 | a counted list of int32 values is read one after the other |
| ItemInfos.ReadVisualId | L2Market.Domain/Entities/ExResponseCommissionListPacket/ExResponseCommissionListPacket.cs:190-199 | with the visual-id bit set, one int32 is read |
| ItemInfos.ReadSoulCrystal | L2Market.Domain/Entities/ExResponseCommissionListPacket/ExResponseCommissionListPacket.cs:202-225 | with the soul-crystal bit set, a byte count and that many int32 values are read, twice |
| ItemInfos.ReadSections | L2Market.Domain/Entities/ExResponseCommissionListPacket/ExResponseCommissionListPacket.cs:146-226 | the optional sections are read in mask-bit order |
| ItemInfos.ReadItemInfo | L2Market.Domain/Entities/ExResponseCommissionListPacket/ExResponseCommissionListPacket.cs:110-228 | the method reads the record the decoding function defines and leaves the reader after it |
| ItemInfos.PrefixShape | L2Market.Domain/Entities/ExResponseCommissionListPacket/ExResponseCommissionListPacket.cs:113-143 | the prefix succeeds exactly when 45 bytes remain, consumes exactly those, and leaves every optional section absent |
| ItemInfos.Int32sSize | L2Market.Domain/Entities/ExResponseCommissionListPacket/ExResponseCommissionListPacket.cs:207-210 | n int32 reads succeed exactly when 4n bytes remain and consume exactly those |
| ItemInfos.Int16sSize | L2Market.Domain/Entities/ExResponseCommissionListPacket/ExResponseCommissionListPacket.cs:171-174 | n int16 reads succeed exactly when 2n bytes remain and consume exactly those |
| ItemInfos.AugmentationShape | L2Market.Domain/Entities/ExResponseCommissionListPacket/ExResponseCommissionListPacket.cs:147-162 | the augmentation is present exactly when its bit is set; nothing else changes; its size is consumed |
| ItemInfos.ElementalShape | L2Market.Domain/Entities/ExResponseCommissionListPacket/ExResponseCommissionListPacket.cs:165-187 | the elemental attributes are present exactly when their bit is set, hold the two attack keys, and their size is consumed |
| ItemInfos.VisualIdShape | L2Market.Domain/Entities/ExResponseCommissionListPacket/ExResponseCommissionListPacket.cs:190-199 | the visual id is present exactly when its bit is set and its size is consumed |
| ItemInfos.SoulCrystalShape | L2Market.Domain/Entities/ExResponseCommissionListPacket/ExResponseCommissionListPacket.cs:202-225 | both soul-crystal lists are present exactly when their bit is set and their size is consumed |
| ItemInfos.SectionsShape | L2Market.Domain/Entities/ExResponseCommissionListPacket/ExResponseCommissionListPacket.cs:146-226 | the sections add exactly what the mask asks for and change no other field |
| ItemInfos.ItemInfoShape | L2Market.Domain/Entities/ExResponseCommissionListPacket/ExResponseCommissionListPacket.cs:110-228 | a decoded record has each optional section exactly when the mask bit is set, and never enchant effects, reuse delay or blessed |
| ItemInfos.ItemInfoSize | L2Market.Domain/Entities/ExResponseCommissionListPacket/ExResponseCommissionListPacket.cs:110-228 | a decoded record consumes exactly its wire size |
| ItemInfos.Int16sRoundTrip | L2Market.Domain/Entities/ExResponseCommissionListPacket/ExResponseCommissionListPacket.cs:171-174 | reading back written int16 values gives them back and leaves what followed |
| ItemInfos.Int32sRoundTrip | L2Market.Domain/Entities/ExResponseCommissionListPacket/ExResponseCommissionListPacket.cs:207-216 | reading back written int32 values gives them back and leaves what followed |
| ItemInfos.PrefixRoundTrip | L2Market.Domain/Entities/ExResponseCommissionListPacket/ExResponseCommissionListPacket.cs:113-127 | reading back a written prefix gives its fields and leaves what followed |
| ItemInfos.AugmentationRoundTrip | L2Market.Domain/Entities/ExResponseCommissionListPacket/ExResponseCommissionListPacket.cs:147-162 | reading back a written augmentation gives its options |
| ItemInfos.ElementalRoundTrip | L2Market.Domain/Entities/ExResponseCommissionListPacket/ExResponseCommissionListPacket.cs:165-187 | reading back written elemental attributes gives attack type and power; the defences are consumed |
| ItemInfos.VisualIdRoundTrip | L2Market.Domain/Entities/ExResponseCommissionListPacket/ExResponseCommissionListPacket.cs:190-199 | reading back a written visual id gives it back |
| ItemInfos.SoulCrystalRoundTrip | L2Market.Domain/Entities/ExResponseCommissionListPacket/ExResponseCommissionListPacket.cs:202-225 | reading back written soul-crystal lists gives both lists back |
| ItemInfos.SectionsRoundTrip | L2Market.Domain/Entities/ExResponseCommissionListPacket/ExResponseCommissionListPacket.cs:146-226 | reading back written sections gives the decoded sections and leaves what followed |
| ItemInfos.ItemInfoRoundTrip | L2Market.Domain/Entities/ExResponseCommissionListPacket/ExResponseCommissionListPacket.cs:110-228 | decoding the bytes of a record gives back the record a receiver builds and leaves exactly what followed |
| StoreDecoders.SlotsWellFormed | L2Market.Domain/Entities/ExPrivateStoreSearchItemPacket/StoreEnums.cs:39-73 | the private-store `BodyPart` enum has 32 members in strictly descending value order, every name starting with "Slot" |
| StoreDecoders.SameValuesAsCommission | L2Market.Domain/Entities/ExPrivateStoreSearchItemPacket/StoreEnums.cs:39-73 | the private-store and commission enums list the same values in the same order, differing in three names only |
| StoreDecoders.SameSlotsAsCommission | L2Market.Domain/Entities/ExPrivateStoreSearchItemPacket/StoreDecoders.cs:20-65 | for every mask, both `DecodeBodyPart`s agree on whether an exact member exists and take the same flag values in the same order |
| StoreDecoders.StoreTypeTable | L2Market.Domain/Entities/ExPrivateStoreSearchItemPacket/StoreDecoders.cs:9-17 | the store-type switch has distinct codes and names, none of which could pass for the unknown text |
| StoreDecoders.DecodeStoreType | L2Market.Domain/Entities/ExPrivateStoreSearchItemPacket/StoreDecoders.cs:9-17 | codes 0, 1 and 2 read as sale, purchase and package sale, every other code as "Неизвестный (n)" |
| StoreDecoders.StoreTypeIdentifies | L2Market.Domain/Entities/ExPrivateStoreSearchItemPacket/StoreDecoders.cs:9-17 | codes 0 to 2 are named, every other code gives "Неизвестный (n)", and different codes give different texts |
| StoreDecoders.DecodeItemType2 | L2Market.Domain/Entities/ExPrivateStoreSearchItemPacket/StoreDecoders.cs:68-79 | codes 0 to 5 read as WEAPON, SHIELD_ARMOR, ACCESSORY, QUEST, MONEY and OTHER, every other code as "UNKNOWN_TYPE2(n)" |
| StoreDecoders.SameItemType2AsCommission | L2Market.Domain/Entities/ExPrivateStoreSearchItemPacket/StoreDecoders.cs:68-79 | the private-store switch and the commission dictionary give the same type2 text for every code |
| StoreDecoders.ElementTable | L2Market.Domain/Entities/ExPrivateStoreSearchItemPacket/StoreDecoders.cs:82-94 | the element switch has distinct codes and names, none of which could pass for the unknown text |
| StoreDecoders.DecodeElementalAttribute | L2Market.Domain/Entities/ExPrivateStoreSearchItemPacket/StoreDecoders.cs:82-94 | -2 reads as "no attack attribute", 0 to 5 as the six element names in order, every other code as "Неизвестный (n)" |
| StoreDecoders.ElementCodes | L2Market.Domain/Entities/ExPrivateStoreSearchItemPacket/StoreDecoders.cs:82-94 | exactly -2 and 0 to 5 have element names |
| StoreDecoders.ElementIdentifies | L2Market.Domain/Entities/ExPrivateStoreSearchItemPacket/StoreDecoders.cs:82-94 | different attack types give different texts |
| StoreDecoders.ElementNamesInOrder | L2Market.Domain/Entities/ExPrivateStoreSearchItemPacket/StoreDecoders.cs:97-100 | `GetElementNames` lists the elements 0 to 5 exactly as the decoder names them |
| CommissionDecoders.SlotsWellFormed | L2Market.Domain/Entities/ExResponseCommissionListPacket/BodyPart.cs:6-168 | the commission `BodyPart` enum has 32 members in strictly descending value order, every name starting with "Slot" |
| CommissionDecoders.NeckAndEars | L2Market.Domain/Entities/ExResponseCommissionListPacket/CommissionDecoders.cs:15-54 | the mask 0xE has no exact member and decodes as the neck and both-ears names joined: the composite ears member wins over the single ears |
| CommissionDecoders.DecodeMana | L2Market.Domain/Entities/ExResponseCommissionListPacket/CommissionDecoders.cs:60-72 | the text is "no mana" exactly for -1, "expired" exactly for 0, "unknown" exactly below -1, and a positive value reads as its seconds |
| CommissionDecoders.ManaIdentifies | L2Market.Domain/Entities/ExResponseCommissionListPacket/CommissionDecoders.cs:60-72 | the mana text tells -1, 0 and every positive value apart; only values below -1 share a text |
| CommissionDecoders.DecodeTime | L2Market.Domain/Entities/ExResponseCommissionListPacket/CommissionDecoders.cs:75-90 | the two special codes -9999 and -2559744 and exactly the other values that are not positive have their fixed texts; a positive value reads as time left |
| CommissionDecoders.TimeSplits | L2Market.Domain/Entities/ExResponseCommissionListPacket/CommissionDecoders.cs:75-90 | a positive time shows whole hours, minutes below 60 and seconds below 60 that add up to it |
| CommissionDecoders.ItemType2Table | L2Market.Domain/Entities/ExResponseCommissionListPacket/CommissionDecoders.cs:97-105 | the type2 dictionary has distinct codes and names, none of which could pass for the unknown text |
| CommissionDecoders.DecodeItemType2 | L2Market.Domain/Entities/ExResponseCommissionListPacket/CommissionDecoders.cs:95-108 | codes 0 to 5 read as the dictionary's six names, every other code as "UNKNOWN_TYPE2(n)" |
| CommissionDecoders.ItemType2Identifies | L2Market.Domain/Entities/ExResponseCommissionListPacket/CommissionDecoders.cs:95-108 | codes 0 to 5 are named, every other code gives "UNKNOWN_TYPE2(n)", and different codes give different texts |
| CommissionDecoders.DecodeCustomType1 | L2Market.Domain/Entities/ExResponseCommissionListPacket/CommissionDecoders.cs:113-116 | 0 reads as "normal", every other code as "custom(n)" |
| CommissionDecoders.CustomType1Identifies | L2Market.Domain/Entities/ExResponseCommissionListPacket/CommissionDecoders.cs:113-116 | the text is "normal" exactly for 0, and different codes give different texts |
| CommissionDecoders.DecodeEquipped | L2Market.Domain/Entities/ExResponseCommissionListPacket/CommissionDecoders.cs:121-129 | 0 and 1 read as not equipped and equipped, every other code as "unknown equipped(n)" |
| CommissionDecoders.EquippedIdentifies | L2Market.Domain/Entities/ExResponseCommissionListPacket/CommissionDecoders.cs:121-129 | "equipped" exactly for 1, "not equipped" exactly for 0, and different codes give different texts |
| MarketDecoders.DecodeStoreType | L2Market.Core/Services/MarketDecoders.cs:18-26 | codes 0 to 2 give the private-store decoder's names, any other code "Неизвестный (n)" |
| MarketDecoders.DecodeElementalAttribute | L2Market.Core/Services/MarketDecoders.cs:74-86 | -2 gives "no attack attribute", 0 to 5 the element names in order, any other code the unknown text |
| MarketDecoders.GetElementNames | L2Market.Core/Services/MarketDecoders.cs:209-212 | six names, each the decoder's name for its index |
| MarketDecoders.DecodeItemType | L2Market.Core/Services/MarketDecoders.cs:32-43 | codes 0 to 5 give the listed item-type names, any other code the unknown text |
| MarketDecoders.ItemTypeCodes | L2Market.Core/Services/MarketDecoders.cs:32-43 | the item-type switch lists exactly the codes 0 to 5, once each |
| MarketDecoders.ItemTypeNames | L2Market.Core/Services/MarketDecoders.cs:32-43 | the item-type names are distinct and none reads like the unknown text |
| MarketDecoders.ItemTypeIdentifies | L2Market.Core/Services/MarketDecoders.cs:32-43 | different item types give different texts |
| MarketDecoders.DecodeSubItemType | L2Market.Core/Services/MarketDecoders.cs:49-68 | each of the fourteen listed sub-types gives its listed name, any other code the unknown text |
| MarketDecoders.SubItemTypeCodes | L2Market.Core/Services/MarketDecoders.cs:49-68 | the sub-type switch lists exactly the fourteen codes, in order |
| MarketDecoders.SubItemTypeCodesDistinct | L2Market.Core/Services/MarketDecoders.cs:49-68 | no sub-type code is listed twice |
| MarketDecoders.SubItemTypeNames | L2Market.Core/Services/MarketDecoders.cs:49-68 | the sub-type names are distinct |
| MarketDecoders.SubItemTypeNamesAvoid | L2Market.Core/Services/MarketDecoders.cs:49-68 | no sub-type name reads like the unknown text |
| MarketDecoders.SubItemTypeIdentifies | L2Market.Core/Services/MarketDecoders.cs:49-68 | different sub-types give different texts |
| MarketDecoders.DecodeCommissionReplyType | L2Market.Core/Services/MarketDecoders.cs:92-101 | the four reply types -2, -1, 2, 3 give their names, any other value the unknown text |
| MarketDecoders.ReplyTypeTable | L2Market.Core/Services/MarketDecoders.cs:92-101 | the reply switch lists -2, -1, 2, 3 once each, with distinct names that cannot pass for the unknown text |
| MarketDecoders.ReplyTypeIdentifies | L2Market.Core/Services/MarketDecoders.cs:92-101 | different reply types give different texts |
| MarketDecoders.DecodeWorldExchangeSubType | L2Market.Core/Services/MarketDecoders.cs:107-122 | categories 1 to 10 give their names, any other value the unknown text |
| MarketDecoders.WorldExchangeSubTypeCodes | L2Market.Core/Services/MarketDecoders.cs:107-122 | the category switch lists exactly 1 to 10, once each |
| MarketDecoders.WorldExchangeSubTypeNames | L2Market.Core/Services/MarketDecoders.cs:107-122 | the category names are distinct and none reads like the unknown text |
| MarketDecoders.WorldExchangeSubTypeIdentifies | L2Market.Core/Services/MarketDecoders.cs:107-122 | different categories give different texts |
| MarketDecoders.GetStoreTypes | L2Market.Core/Services/MarketDecoders.cs:217-227 | the store-type filter has exactly the keys sell, buy and all, sell and buy named as the decoder names them |
| MarketDecoders.GetItemTypes | L2Market.Core/Services/MarketDecoders.cs:230-241 | the item-type filter has exactly the keys all (0xFF), 0, 2 and 4, all named "Все" |
| MarketDecoders.GetSubItemTypes | L2Market.Core/Services/MarketDecoders.cs:244-264 | the sub-type filter has "Все" under 0xFF and every listed sub-type under its code with the decoder's name, and nothing else |
| MarketDecoders.SubItemAllApart | L2Market.Core/Services/MarketDecoders.cs:244-264 | the "all" key 0xFF is not itself a sub-type code |
| MarketDecoders.FormatPrice | L2Market.Core/Services/MarketDecoders.cs:128-139 | from a thousand up the price is scaled by the largest of K, M, B it reaches (scaled value below 1000 except for B); below a thousand it is grouped whole |
| MarketDecoders.PriceUnitMonotone | L2Market.Core/Services/MarketDecoders.cs:128-139 | a larger price never gets a smaller unit |
| MarketDecoders.FormatEndTime | L2Market.Core/Services/MarketDecoders.cs:142-161 | the text is "Истек" exactly when the 32-bit remaining time is not positive |
| MarketDecoders.RemainingParts | L2Market.Core/Services/MarketDecoders.cs:148-158 | the days, hours and minutes shown add up with the dropped seconds to the remaining time, with hours below 24 and minutes below 60 |
| MarketDecoders.FormatEnchantLevel | L2Market.Core/Services/MarketDecoders.cs:164-173 | empty exactly for level 0; a leading '+' exactly for positive levels |
| MarketDecoders.EnchantLevelRoundTrip | L2Market.Core/Services/MarketDecoders.cs:164-173 | a shown nonzero level parses back to the same level |
| MarketDecoders.GetEnchantColor | L2Market.Core/Services/MarketDecoders.cs:176-188 | grey exactly below +1 |
| MarketDecoders.EnchantColorSteps | L2Market.Core/Services/MarketDecoders.cs:176-188 | the levels between two levels of one colour have that colour too |
| MarketDecoders.EnchantColorChanges | L2Market.Core/Services/MarketDecoders.cs:176-188 | the colour changes exactly at the levels 1, 5, 10 and 16 |
| MarketDecoders.GetPriceColor | L2Market.Core/Services/MarketDecoders.cs:191-206 | grey exactly when there is no average price |
| MarketDecoders.Ratio | L2Market.Core/Services/MarketDecoders.cs:195 | the ratio times the average is the price |
| MarketDecoders.PriceColorBands | L2Market.Core/Services/MarketDecoders.cs:191-206 | against a positive average, green exactly when the price is at most half of it, red exactly when above 1.2 times it |
| PacketHex.HexDigit | L2Market.Domain/Utils/PacketHexHelper.cs:139 | each digit printed is 0-9 or an uppercase A-F |
| PacketHex.HexOf | L2Market.Domain/Utils/PacketHexHelper.cs:139 | two hexadecimal characters per byte |
| PacketHex.HexOfDigits | L2Market.Domain/Utils/PacketHexHelper.cs:139 | characters 2i and 2i+1 are the high and low nibble of byte i, no separators |
| PacketHex.ValueBytes | L2Market.Domain/Utils/PacketHexHelper.cs:34-80 | a member writes bytes exactly when its type is one the writer supports |
| PacketHex.VisitedMembers | L2Market.Domain/Utils/PacketHexHelper.cs:85 | the properties visited are at most the properties declared |
| PacketHex.ToHexF | L2Market.Domain/Utils/PacketHexHelper.cs:23-142 | fails exactly when a written member has an unsupported type, naming the first one; otherwise the text has two hex digits per byte |
| PacketHex.ToHex | L2Market.Domain/Utils/PacketHexHelper.cs:23-142 | the two writer loops produce the hex of the fields then the visited properties, or the first unsupported member's error |
| PacketHex.WriteFields | L2Market.Domain/Utils/PacketHexHelper.cs:29-81 | the field loop writes the fields' bytes, or stops with the error the whole object gives |
| PacketHex.WriteProperties | L2Market.Domain/Utils/PacketHexHelper.cs:83-137 | the property loop continues the fields' stream with every readable, non-indexed property |
| PacketHex.FixedWidths | L2Market.Domain/Utils/PacketHexHelper.cs:34-53 | every supported type but string writes its fixed width; a bool writes 01 or 00 |
| PacketHex.StringLayout | L2Market.Domain/Utils/PacketHexHelper.cs:54-70 | a string is an optional 16-bit byte count, its encoded bytes, and two zero bytes after them for UTF-16LE only |
| PacketHex.UnicodeStringBytes | L2Market.Domain/Utils/PacketHexHelper.cs:54-70 | a counted UTF-16LE string is its byte count, its UTF-16LE bytes and a NUL unit |
| PacketHex.AsciiStringBytes | L2Market.Domain/Utils/PacketHexHelper.cs:54-70 | a counted ASCII string is its code-unit count and one byte per unit, with no terminator |
| PacketHex.AsciiSurrogatePairString | L2Market.Domain/Utils/PacketHexHelper.cs:173-176 | a string holding U+1F600, written with ASCII and its length, is 02 00 3F 3F |
| PacketHex.UnicodeStringReadBack | L2Market.Domain/Utils/PacketHexHelper.cs:54-70 | the count of a counted UTF-16LE string reads back, followed by the text's bytes and the NUL unit |
| PacketHex.CountedReadBack | L2Market.Domain/Utils/PacketHexHelper.cs:59-63 | a 16-bit count reads back and that many bytes follow it |
| PacketHex.FirstUnsupported | L2Market.Domain/Utils/PacketHexHelper.cs:79 | writing fails exactly when some member is of an unsupported type, and the error names the first such member |
| PacketHex.MembersAppend | L2Market.Domain/Utils/PacketHexHelper.cs:29-137 | the bytes of two member lists in a row are their bytes concatenated |
| PacketHex.FieldsBeforeProperties | L2Market.Domain/Utils/PacketHexHelper.cs:29-137 | every field is written before any property |
| PacketHex.Auto | L2Market.Domain/Utils/PacketHexHelper.cs:85 | one auto-property per member |
| PacketHex.AutoVisited | L2Market.Domain/Utils/PacketHexHelper.cs:85 | an object of auto-properties writes all of them, in declaration order |
| PacketHex.CommandWritten | L2Market.Domain/Commands/RequestItemListCommand.cs:13-38 | a command object writes exactly its properties |
| PacketHex.RequestItemListBytes | L2Market.Domain/Commands/RequestItemListCommand.cs:13-38 | the item-list request is D0 14 02 00 00 03, the item type, FF 00 |
| PacketHex.RequestCommissionBuyInfoBytes | L2Market.Domain/Commands/RequestCommissionBuyInfoCommand.cs:11-36 | the commission buy-info request is D0 9E 00, int 1, the item type, long -1 and 00 00, little-endian |
| PacketHex.CommissionConstants | L2Market.Domain/Commands/RequestCommissionBuyInfoCommand.cs:21-31 | the int 1 is 01 00 00 00 and the long -1 is eight FF bytes |
| PacketHex.ActionBytes | L2Market.Domain/Commands/ActionCommand.cs:13-38 | the action request is 1F, four little-endian ints and the action byte |
| PacketHex.WorldExchangeSearchBytes | L2Market.Domain/Commands/ExWorldExchangeSearchItemCommand.cs:13-44 | the world-exchange search is D0 3F 02, the item type and second word as little-endian shorts, then seven zero bytes |
| PacketParser.HexValue | L2Market.Core/Services/PacketParserService.cs:108 | a hex digit's value is below 16 |
| PacketParser.HexDigitsAccepted | L2Market.Core/Services/PacketParserService.cs:108 | exactly 0-9, A-F and a-f are hex digits |
| PacketParser.PairsMeaning | L2Market.Core/Services/PacketParserService.cs:106-109 | converting the pairs succeeds exactly when every pair converts, and byte i is pair i's value |
| PacketParser.ConvertEmptyOrOdd | L2Market.Core/Services/PacketParserService.cs:102-103 | empty or odd-length text converts to no bytes |
| PacketParser.ConvertMeaning | L2Market.Core/Services/PacketParserService.cs:100-115 | even-length text of good pairs gives one byte per pair; one bad pair empties the result |
| PacketParser.PairOfDigits | L2Market.Core/Services/PacketParserService.cs:108 | two hex digits give sixteen times the high one plus the low one, in either case |
| PacketParser.DigitReadBack | L2Market.Core/Services/PacketParserService.cs:108 | the digits the hex writer prints convert back to their values |
| PacketParser.ByteDigitsReadBack | L2Market.Core/Services/PacketParserService.cs:108 | a byte's two printed digits convert back to the byte |
| PacketParser.PairsOfHexOf | L2Market.Core/Services/PacketParserService.cs:100-115 | converting the pairs of printed hex gives the bytes back |
| PacketParser.HexRoundTrip | L2Market.Core/Services/PacketParserService.cs:100-115 | `ConvertHexStringToBytes` inverts the hex writer on every byte string |
| PacketParser.PacketOf | L2Market.Core/Services/PacketParserService.cs:64-92 | a packet's payload is the conversion of its hex text |
| PacketParser.RouteByKey | L2Market.Core/Services/PacketParserService.cs:123-170 | each handler fires for exactly the packets matching its id, direction and extended id |
| PacketParser.UnmatchedDropped | L2Market.Core/Services/PacketParserService.cs:123-170 | a packet goes unhandled exactly when no handler's key matches it |
| PacketParser.ProcessEvents | L2Market.Core/Services/PacketParserService.cs:159-167 | only server packets 0xFE with extended id 02D4, 02FD or 00F8 that decode publish an event, carrying the decoder's items |
| PacketParser.PacketParserService.constructor | L2Market.Core/Services/PacketParserService.cs:23-28 | a new service is not running |
| PacketParser.PacketParserService.StartAsync | L2Market.Core/Services/PacketParserService.cs:40-52 | after starting the service runs, whether or not it already ran |
| PacketParser.PacketParserService.Stop | L2Market.Core/Services/PacketParserService.cs:54-60 | after stopping the service does not run; stopping a stopped service changes nothing |
| PrivateStorePacket.ReadSizedString | L2Market.Domain/Entities/ExPrivateStoreSearchItemPacket/ExPrivateStoreSearchItemPacket.cs:274-285 | the method reads the unit count and at most twice that many bytes as the decoding function defines, advancing past them |
| PrivateStorePacket.SizedStringRoundTrip | L2Market.Domain/Entities/ExPrivateStoreSearchItemPacket/ExPrivateStoreSearchItemPacket.cs:274-285 | a name written as its unit count and UTF-16LE bytes reads back, lone surrogates replaced |
| PrivateStorePacket.ReadOfferHeader | L2Market.Domain/Entities/ExPrivateStoreSearchItemPacket/ExPrivateStoreSearchItemPacket.cs:71-80 | the vendor name and the seven fixed fields in front of the record are read as the header function defines them |
| PrivateStorePacket.ReadPrivateStoreItem | L2Market.Domain/Entities/ExPrivateStoreSearchItemPacket/ExPrivateStoreSearchItemPacket.cs:68-94 | one offer is read as the item function defines it; the reader is after the offer when it succeeds |
| PrivateStorePacket.ReadItems | L2Market.Domain/Entities/ExPrivateStoreSearchItemPacket/ExPrivateStoreSearchItemPacket.cs:47-63 | the loop reads up to n offers and ends quietly at the first that cannot be read, keeping the earlier ones |
| PrivateStorePacket.FromBytes | L2Market.Domain/Entities/ExPrivateStoreSearchItemPacket/ExPrivateStoreSearchItemPacket.cs:34-66 | the method decodes the page the decoding function defines |
| PrivateStorePacket.DecodedCounts | L2Market.Domain/Entities/ExPrivateStoreSearchItemPacket/ExPrivateStoreSearchItemPacket.cs:34-66 | only a header shorter than six bytes is an error, and a page holds at most nSize items (none when nSize is not positive) |
| PrivateStorePacket.ItemWithinShape | L2Market.Domain/Entities/ExPrivateStoreSearchItemPacket/ExPrivateStoreSearchItemPacket.cs:96-272 | an item record is accepted exactly when it decodes within its declared size, and the reader then stops right after it |
| PrivateStorePacket.DecodedItems | L2Market.Domain/Entities/ExPrivateStoreSearchItemPacket/ExPrivateStoreSearchItemPacket.cs:47-63 | one decoded item per written item, in order |
| PrivateStorePacket.ItemWithinRoundTrip | L2Market.Domain/Entities/ExPrivateStoreSearchItemPacket/ExPrivateStoreSearchItemPacket.cs:264-269 | a written record that fits its declared size reads back |
| PrivateStorePacket.OfferHeaderRoundTrip | L2Market.Domain/Entities/ExPrivateStoreSearchItemPacket/ExPrivateStoreSearchItemPacket.cs:71-80 | the written header reads back with the vendor name scrubbed |
| PrivateStorePacket.StoreItemRoundTrip | L2Market.Domain/Entities/ExPrivateStoreSearchItemPacket/ExPrivateStoreSearchItemPacket.cs:68-94 | a written offer reads back as the offer a receiver builds |
| PrivateStorePacket.ItemsRoundTrip | L2Market.Domain/Entities/ExPrivateStoreSearchItemPacket/ExPrivateStoreSearchItemPacket.cs:47-63 | the loop reads back every written offer in order, then stops at the step limit or at bytes that are not an offer |
| PrivateStorePacket.PageRoundTrip | L2Market.Domain/Entities/ExPrivateStoreSearchItemPacket/ExPrivateStoreSearchItemPacket.cs:34-66 | a page decodes to exactly its written offers when what follows them is not an offer |
| CommissionPacket.ReadNullString | L2Market.Domain/Entities/ExResponseCommissionListPacket/ExResponseCommissionListPacket.cs:231-268 | the method reads the name the decoding function defines and leaves the reader after it |
| CommissionPacket.NameTailShape | L2Market.Domain/Entities/ExResponseCommissionListPacket/ExResponseCommissionListPacket.cs:247-262 | the name loop keeps the units read so far, adds no zero unit and stops by 101 units |
| CommissionPacket.NullStringShape | L2Market.Domain/Entities/ExResponseCommissionListPacket/ExResponseCommissionListPacket.cs:231-268 | reading a name never fails; a name returned has 1 to 101 code units and no zero unit |
| CommissionPacket.NameTailRoundTrip | L2Market.Domain/Entities/ExResponseCommissionListPacket/ExResponseCommissionListPacket.cs:247-262 | the loop reads back the written units up to a zero terminator or the 101-unit cap |
| CommissionPacket.NullStringRoundTrip | L2Market.Domain/Entities/ExResponseCommissionListPacket/ExResponseCommissionListPacket.cs:231-268 | a name a sender wrote, or its absence, reads back and leaves what followed |
| CommissionPacket.ReadCommissionItem | L2Market.Domain/Entities/ExResponseCommissionListPacket/ExResponseCommissionListPacket.cs:84-108 | the method reads the 28-byte header, the seller name and the item record as the item function defines them |
| CommissionPacket.FromBytes | L2Market.Domain/Entities/ExResponseCommissionListPacket/ExResponseCommissionListPacket.cs:34-81 | the method decodes the list the decoding function defines, or its error |
| CommissionPacket.NoAuctionsReply | L2Market.Domain/Entities/ExResponseCommissionListPacket/ExResponseCommissionListPacket.cs:54-56 | a reply type other than PlayerAuctions and Auctions yields an empty list and zero header values, whatever follows |
| CommissionPacket.DecodedCounts | L2Market.Domain/Entities/ExResponseCommissionListPacket/ExResponseCommissionListPacket.cs:67-78 | a decoded list holds exactly chunkSize items (none when negative); a failing item index lies between 1 and chunkSize |
| CommissionPacket.EndOfStreamWhen | L2Market.Domain/Entities/ExResponseCommissionListPacket/ExResponseCommissionListPacket.cs:43-64 | the stream ends early exactly when the reply type or, for auction replies, the header is cut short |
| CommissionPacket.DecodedItems | L2Market.Domain/Entities/ExResponseCommissionListPacket/ExResponseCommissionListPacket.cs:67-78 | one decoded item per written item, in order |
| CommissionPacket.CommissionItemRoundTrip | L2Market.Domain/Entities/ExResponseCommissionListPacket/ExResponseCommissionListPacket.cs:84-108 | a written commission item reads back as the item a receiver builds |
| CommissionPacket.ItemsRoundTrip | L2Market.Domain/Entities/ExResponseCommissionListPacket/ExResponseCommissionListPacket.cs:67-78 | the loop reads back every written item in order |
| CommissionPacket.HeaderThenItems | L2Market.Domain/Entities/ExResponseCommissionListPacket/ExResponseCommissionListPacket.cs:57-78 | a header for n items is read, then the item loop runs on what follows; a failing item becomes InvalidItem(i+1) |
| CommissionPacket.PacketRoundTrip | L2Market.Domain/Entities/ExResponseCommissionListPacket/ExResponseCommissionListPacket.cs:34-81 | a written auction packet decodes to its header and every item, in order |
| WorldExchangePacket.FindMarker | L2Market.Domain/Entities/WorldExchangeItemListPacket/WorldExchangeItemListPacket.cs:67-84 | the scan finds the first FE FF pair at or after the start, or -1 when there is none |
| WorldExchangePacket.ReadBase | L2Market.Domain/Entities/WorldExchangeItemListPacket/WorldExchangeItemListPacket.cs:87-92 | the first six fields are read as the base function defines them |
| WorldExchangePacket.ReadAugmentation | L2Market.Domain/Entities/WorldExchangeItemListPacket/WorldExchangeItemListPacket.cs:95-97 | the augmentation block is read as its function defines it |
| WorldExchangePacket.ReadAttack | L2Market.Domain/Entities/WorldExchangeItemListPacket/WorldExchangeItemListPacket.cs:100-101 | the attack attribute is read as its function defines it |
| WorldExchangePacket.ReadDefence | L2Market.Domain/Entities/WorldExchangeItemListPacket/WorldExchangeItemListPacket.cs:104-109 | the six defences are read as their function defines them |
| WorldExchangePacket.ReadTrailer | L2Market.Domain/Entities/WorldExchangeItemListPacket/WorldExchangeItemListPacket.cs:112-120 | the visual id, soul-crystal options and blessed flag are read as their function defines them |
| WorldExchangePacket.ReadWorldExchangeItem | L2Market.Domain/Entities/WorldExchangeItemListPacket/WorldExchangeItemListPacket.cs:65-146 | the item read is the one the decoding function defines; the marker scan does not change it |
| WorldExchangePacket.FromBytes | L2Market.Domain/Entities/WorldExchangeItemListPacket/WorldExchangeItemListPacket.cs:36-62 | the method decodes the list the decoding function defines, or its error |
| WorldExchangePacket.BaseShape | L2Market.Domain/Entities/WorldExchangeItemListPacket/WorldExchangeItemListPacket.cs:87-92 | the base block succeeds exactly when 36 bytes are left and consumes them |
| WorldExchangePacket.AugmentationShape | L2Market.Domain/Entities/WorldExchangeItemListPacket/WorldExchangeItemListPacket.cs:95-97 | the augmentation block needs and consumes 12 bytes |
| WorldExchangePacket.AttackShape | L2Market.Domain/Entities/WorldExchangeItemListPacket/WorldExchangeItemListPacket.cs:100-101 | the attack block needs and consumes 4 bytes |
| WorldExchangePacket.DefenceShape | L2Market.Domain/Entities/WorldExchangeItemListPacket/WorldExchangeItemListPacket.cs:104-109 | the defence block needs and consumes 12 bytes |
| WorldExchangePacket.TrailerShape | L2Market.Domain/Entities/WorldExchangeItemListPacket/WorldExchangeItemListPacket.cs:112-120 | the trailer needs and consumes 18 bytes |
| WorldExchangePacket.ArmourShape | L2Market.Domain/Entities/WorldExchangeItemListPacket/WorldExchangeItemListPacket.cs:104-120 | defences and trailer need and consume 30 bytes |
| WorldExchangePacket.CombatShape | L2Market.Domain/Entities/WorldExchangeItemListPacket/WorldExchangeItemListPacket.cs:100-120 | attack, defences and trailer need and consume 34 bytes |
| WorldExchangePacket.ExtrasShape | L2Market.Domain/Entities/WorldExchangeItemListPacket/WorldExchangeItemListPacket.cs:95-120 | everything after the base needs and consumes 46 bytes |
| WorldExchangePacket.ItemShape | L2Market.Domain/Entities/WorldExchangeItemListPacket/WorldExchangeItemListPacket.cs:65-146 | an item is read exactly when 82 bytes are left, and consumes exactly those |
| WorldExchangePacket.ItemsFit | L2Market.Domain/Entities/WorldExchangeItemListPacket/WorldExchangeItemListPacket.cs:49-60 | the loop succeeds exactly when 82 bytes are there per remaining item, else fails at the first cut-short item |
| WorldExchangePacket.HeaderFields | L2Market.Domain/Entities/WorldExchangeItemListPacket/WorldExchangeItemListPacket.cs:43-60 | the header fills the first eleven bytes (EndOfStream when shorter) and the item loop runs on the rest |
| WorldExchangePacket.DecodedCounts | L2Market.Domain/Entities/WorldExchangeItemListPacket/WorldExchangeItemListPacket.cs:36-62 | only a packet shorter than 11 bytes is EndOfStream; a list holds exactly max(itemsCount, 0) items; a failure names the first cut-short item |
| WorldExchangePacket.BaseRoundTrip | L2Market.Domain/Entities/WorldExchangeItemListPacket/WorldExchangeItemListPacket.cs:87-92 | the written base fields read back |
| WorldExchangePacket.AugmentationRoundTrip | L2Market.Domain/Entities/WorldExchangeItemListPacket/WorldExchangeItemListPacket.cs:95-97 | the written augmentation fields read back |
| WorldExchangePacket.AttackRoundTrip | L2Market.Domain/Entities/WorldExchangeItemListPacket/WorldExchangeItemListPacket.cs:100-101 | the written attack fields read back |
| WorldExchangePacket.DefenceRoundTrip | L2Market.Domain/Entities/WorldExchangeItemListPacket/WorldExchangeItemListPacket.cs:104-109 | the written defences read back |
| WorldExchangePacket.TrailerRoundTrip | L2Market.Domain/Entities/WorldExchangeItemListPacket/WorldExchangeItemListPacket.cs:112-120 | the written trailer fields read back |
| WorldExchangePacket.ItemRoundTrip | L2Market.Domain/Entities/WorldExchangeItemListPacket/WorldExchangeItemListPacket.cs:65-146 | every field of a written item reads back exactly |
| WorldExchangePacket.ItemsRoundTrip | L2Market.Domain/Entities/WorldExchangeItemListPacket/WorldExchangeItemListPacket.cs:49-60 | the loop reads back every written item in order |
| WorldExchangePacket.HeaderThenItems | L2Market.Domain/Entities/WorldExchangeItemListPacket/WorldExchangeItemListPacket.cs:43-60 | a header for n items is read, then the item loop; a failing item becomes InvalidItem(i+1) |
| WorldExchangePacket.PacketRoundTrip | L2Market.Domain/Entities/WorldExchangeItemListPacket/WorldExchangeItemListPacket.cs:36-62 | a written packet decodes to its header and every item, in order |
| UserInfoEntity.UserInfoPacket.constructor | L2Market.Domain/Entities/UserInfoPacket.cs:15-19 | a new packet has id 0x32, direction "S" and every property at its default |
| UserInfoEntity.UserInfoPacket.ParseHead | L2Market.Domain/Entities/UserInfoPacket.cs:26-37 | the id check, object id and name update the properties as the head function defines, stopping at the first failure |
| UserInfoEntity.UserInfoPacket.ParseTail | L2Market.Domain/Entities/UserInfoPacket.cs:40-48 | level and class id are assigned one at a time and the position only once all three floats are read |
| UserInfoEntity.UserInfoPacket.ParseFromBytes | L2Market.Domain/Entities/UserInfoPacket.cs:21-49 | the properties after a parse, and the exception it ends with, are those the parse function defines |
| UserInfoEntity.UserInfoPacket.ToBytes | L2Market.Domain/Entities/UserInfoPacket.cs:51-70 | the bytes written are those the serialising function defines |
| UserInfoEntity.ToBytesLayout | L2Market.Domain/Entities/UserInfoPacket.cs:51-70 | a packet is 27 bytes plus two per name unit, starts with the id byte, and its length field is the unit count cast to 16 bits |
| UserInfoEntity.WrongIdRejected | L2Market.Domain/Entities/UserInfoPacket.cs:27-29 | a packet with another id is rejected before any property changes |
| UserInfoEntity.TailRoundTrip | L2Market.Domain/Entities/UserInfoPacket.cs:40-48 | the written level, class id and position read back |
| UserInfoEntity.HeadRoundTrip | L2Market.Domain/Entities/UserInfoPacket.cs:27-37 | the written id, object id and name read back, the name without lone surrogates and trailing NULs |
| UserInfoEntity.RoundTrip | L2Market.Domain/Entities/UserInfoPacket.cs:21-70 | serialising and parsing back restores every property, the name scrubbed and NUL-trimmed, when its unit count fits in 16 bits |
| UserInfoEntity.CutAfterName | L2Market.Domain/Entities/UserInfoPacket.cs:32-40 | a packet cut short after the name leaves the object id and name updated and every later property as it was |
| UserInfoEntity.CutAfterHead | L2Market.Domain/Entities/UserInfoPacket.cs:37-40 | a packet with fewer than four bytes after the name ends with EndOfStream after the head |
| UserInfoEntity.TailShort | L2Market.Domain/Entities/UserInfoPacket.cs:40 | with fewer than four bytes left the level cannot be read and nothing more changes |
| UserInfoPacket.IncludedUpTo | L2Market.Domain/Entities/UserInfoPacket/UserInfoPacket.cs:51-63 | the components the first n mask bits name: at most n, each of a defined type |
| UserInfoPacket.MaskBitOf | L2Market.Domain/Entities/UserInfoPacket/UserInfoPacket.cs:51-58 | bit b of mask byte i is mask bit 8i+7-b |
| UserInfoPacket.IncludedStep | L2Market.Domain/Entities/UserInfoPacket/UserInfoPacket.cs:53-61 | one more bit of the scan adds its component exactly when the bit is set and the byte-cast number is defined |
| UserInfoPacket.IncludedComponents | L2Market.Domain/Entities/UserInfoPacket/UserInfoPacket.cs:49-63 | the nested scan collects the components the whole mask names, in bit order |
| UserInfoPacket.ScanMaskByte | L2Market.Domain/Entities/UserInfoPacket/UserInfoPacket.cs:53-61 | the inner loop over bits 7 down to 0 extends the list by that byte's components |
| UserInfoPacket.IncludedUpToMembers | L2Market.Domain/Entities/UserInfoPacket/UserInfoPacket.cs:51-63 | a type is included exactly when some selected mask bit names it |
| UserInfoPacket.IncludedMembers | L2Market.Domain/Entities/UserInfoPacket/UserInfoPacket.cs:51-63 | component t is included exactly when its type is defined and some set mask bit k has k mod 256 equal to t |
| UserInfoPacket.ExampleMaskBits | L2Market.Domain/Entities/UserInfoPacket/UserInfoPacket.cs:51-58 | in the mask C0 20 exactly bits 0, 1 and 10 are set |
| UserInfoPacket.IncludedExample | L2Market.Domain/Entities/UserInfoPacket/UserInfoPacket.cs:51-63 | the mask C0 20 includes RELATION, BASIC_INFO and POSITION, in that order |
| UserInfoPacket.TypeOf | L2Market.Domain/Entities/UserInfoPacket/UserInfoPacket.cs:67-120 | a decoded component is stored under one of the three decoded types |
| UserInfoPacket.ComponentF | L2Market.Domain/Entities/UserInfoPacket/UserInfoPacket.cs:69-119 | a component yields a value exactly for the three decoded types, of that type; a skipped one never fails |
| UserInfoPacket.ReadNameBlock | L2Market.Domain/Entities/UserInfoPacket/UserInfoPacket.cs:75-78 | the size, name length and name are read as the name-block function defines them |
| UserInfoPacket.ReadBasicInfo | L2Market.Domain/Entities/UserInfoPacket/UserInfoPacket.cs:74-98 | BASIC_INFO is read as its function defines it |
| UserInfoPacket.ReadPosition | L2Market.Domain/Entities/UserInfoPacket/UserInfoPacket.cs:99-106 | POSITION is read as its function defines it |
| UserInfoPacket.ReadComponent | L2Market.Domain/Entities/UserInfoPacket/UserInfoPacket.cs:69-119 | one arm of the switch reads what the component function defines |
| UserInfoPacket.ReadHeader | L2Market.Domain/Entities/UserInfoPacket/UserInfoPacket.cs:39-47 | object id, block size, bit count and the mask bytes present are read as the header function defines |
| UserInfoPacket.ReadComponents | L2Market.Domain/Entities/UserInfoPacket/UserInfoPacket.cs:67-120 | the loop over included components reads them in order into the map the components function defines |
| UserInfoPacket.FromBytes | L2Market.Domain/Entities/UserInfoPacket/UserInfoPacket.cs:23-127 | the method decodes what the decoding function defines, or its error |
| UserInfoPacket.HeaderShape | L2Market.Domain/Entities/UserInfoPacket/UserInfoPacket.cs:39-47 | the header needs 10 bytes; the mask holds (maskBits+7)/8 bytes or as many as remain, taken right after the header |
| UserInfoPacket.ComponentsKeys | L2Market.Domain/Entities/UserInfoPacket/UserInfoPacket.cs:67-120 | the keys read are the stored types among those listed, each mapped to a component of its type |
| UserInfoPacket.LastWins | L2Market.Domain/Entities/UserInfoPacket/UserInfoPacket.cs:67-120 | a later component of a type replaces an earlier one in the map |
| UserInfoPacket.DecodeOutcome | L2Market.Domain/Entities/UserInfoPacket/UserInfoPacket.cs:23-127 | an empty packet is PacketTooShort, a cut header EndOfStream, and a decoded packet holds the mask bytes present and one component per included stored type |
| UserInfoPacket.Decoded | L2Market.Domain/Entities/UserInfoPacket/UserInfoPacket.cs:74-98 | decoding keeps a component's type |
| UserInfoPacket.NameBlockRoundTrip | L2Market.Domain/Entities/UserInfoPacket/UserInfoPacket.cs:75-78 | a written name block reads back as the name without lone surrogates and trailing NULs |
| UserInfoPacket.BasicInfoFixedRoundTrip | L2Market.Domain/Entities/UserInfoPacket/UserInfoPacket.cs:79-81 | the three written flag bytes read back in order |
| UserInfoPacket.BasicInfoRoundTrip | L2Market.Domain/Entities/UserInfoPacket/UserInfoPacket.cs:74-98 | a written BASIC_INFO reads back decoded |
| UserInfoPacket.PositionRoundTrip | L2Market.Domain/Entities/UserInfoPacket/UserInfoPacket.cs:99-106 | a written POSITION reads back |
| UserInfoPacket.OpaqueRoundTrip | L2Market.Domain/Entities/UserInfoPacket/UserInfoPacket.cs:107-117 | a skipped component whose payload fits leaves the stream right after it |
| UserInfoPacket.PartRoundTrip | L2Market.Domain/Entities/UserInfoPacket/UserInfoPacket.cs:69-119 | every written component reads back as itself, decoded, or is skipped |
| UserInfoPacket.OpaqueCutShort | L2Market.Domain/Entities/UserInfoPacket/UserInfoPacket.cs:109-115 | a size claiming more than remains consumes only the size field, and decoding goes on |
| UserInfoPacket.PartsRoundTrip | L2Market.Domain/Entities/UserInfoPacket/UserInfoPacket.cs:67-120 | written components read back into the map they describe |
| UserInfoPacket.HeaderRoundTrip | L2Market.Domain/Entities/UserInfoPacket/UserInfoPacket.cs:39-47 | a written header with a full mask reads back |
| UserInfoPacket.PacketRoundTrip | L2Market.Domain/Entities/UserInfoPacket/UserInfoPacket.cs:23-127 | a written packet decodes to its header fields, mask and the components its parts carry |
| IniConfig.ParseIniFile | L2Market.Core/Configuration/IniConfigurationService.cs:87-126 | the loop over the non-empty LF-separated pieces throws exactly when some line sets a timeout of its section to a value `TimeSpan.FromSeconds` throws on; otherwise it returns the settings the fold of the line rule over them defines, starting from the defaults and no section |
| IniConfig.ParseLine | L2Market.Core/Configuration/IniConfigurationService.cs:95-122 | one line against the current section gives the section and settings the line rule defines, and throws exactly when it sets a NamedPipe or Injection timeout to a value `TimeSpan.FromSeconds` throws on |
| IniConfig.StepSkip | L2Market.Core/Configuration/IniConfigurationService.cs:95-97 | a line that trims to nothing or starts with ';' changes neither the section nor the settings |
| IniConfig.StepHeader | L2Market.Core/Configuration/IniConfigurationService.cs:99-103 | a trimmed line in brackets makes its inside the current section and changes no setting |
| IniConfig.StepNoEntry | L2Market.Core/Configuration/IniConfigurationService.cs:105-106 | a line with no '=', or with '=' first, changes nothing |
| IniConfig.StepEntry | L2Market.Core/Configuration/IniConfigurationService.cs:105-122 | a line whose first '=' is at a positive index assigns the trimmed text before it the trimmed text after it, in the current section |
| IniConfig.CommentSkipped | L2Market.Core/Configuration/IniConfigurationService.cs:96-97 | blank and comment lines change nothing |
| IniConfig.HeaderSwitches | L2Market.Core/Configuration/IniConfigurationService.cs:99-103 | "[name]" is read as a section header that makes name the current section, for every name, and keeps every setting |
| IniConfig.NoAssignmentSkipped | L2Market.Core/Configuration/IniConfigurationService.cs:105-106 | a non-section line with no '=' after its first character changes nothing |
| IniConfig.EntryLine | L2Market.Core/Configuration/IniConfigurationService.cs:105-109 | "key=value" with a plain key is read as that key and that value, even when the value holds '=' |
| IniConfig.CaseInsensitive | L2Market.Core/Configuration/IniConfigurationService.cs:111-178 | section names and keys match whatever their case |
| IniConfig.UnknownSectionIgnored | L2Market.Core/Configuration/IniConfigurationService.cs:111-122 | an assignment outside NamedPipe, Injection and UI changes no setting |
| IniConfig.RejectedValueKeeps | L2Market.Core/Configuration/IniConfigurationService.cs:128-204 | a value no parser accepts leaves every setting except the three text settings as it was |
| IniConfig.AssignmentOverrides | L2Market.Core/Configuration/IniConfigurationService.cs:176-204 | in the UI section an accepted value replaces the setting, so the last assignment of a key wins |
| IniConfig.EntryStep | L2Market.Core/Configuration/IniConfigurationService.cs:105-122 | an assignment line applies its key and value in the current section |
| IniConfig.NoEntriesKeep | L2Market.Core/Configuration/IniConfigurationService.cs:93-123 | lines that assign nothing keep the settings |
| IniConfig.NoEntriesDefaults | L2Market.Core/Configuration/IniConfigurationService.cs:87-126 | a text with no assignment line parses to the defaults |
| IniConfig.FoldAssignments | L2Market.Core/Configuration/IniConfigurationService.cs:93-123 | a run of "key=value" lines applies its pairs in order in the current section |
| IniConfig.NamedPipeKeys | L2Market.Core/Configuration/IniConfigurationService.cs:128-153 | each NamedPipe value as written is read back into its own setting alone, for timeouts whose printed seconds parse back to them |
| IniConfig.NamedPipeApplied | L2Market.Core/Configuration/IniConfigurationService.cs:213-218 | the NamedPipe lines as written, applied in the NamedPipe section, restore exactly the NamedPipe settings when the four stored timeouts survive their printed seconds |
| IniConfig.InjectionKeys | L2Market.Core/Configuration/IniConfigurationService.cs:155-174 | each Injection value as written is read back into its own setting alone, for timeouts whose printed seconds parse back to them |
| IniConfig.InjectionApplied | L2Market.Core/Configuration/IniConfigurationService.cs:220-224 | the Injection lines as written restore exactly the Injection settings when the two stored timeouts survive their printed seconds |
| IniConfig.UIKeys | L2Market.Core/Configuration/IniConfigurationService.cs:176-204 | each UI value as written is read back into its own setting alone |
| IniConfig.UIApplied | L2Market.Core/Configuration/IniConfigurationService.cs:226-232 | the UI lines as written restore exactly the UI settings |
| IniConfig.BlockLines | L2Market.Core/Configuration/IniConfigurationService.cs:213-232 | a section as written is a header and one line per pair, none empty and none holding LF |
| IniConfig.SectionRead | L2Market.Core/Configuration/IniConfigurationService.cs:99-122 | a written section read back switches to the section and applies its pairs in order |
| IniConfig.Comment1Read | L2Market.Core/Configuration/IniConfigurationService.cs:210 | the first comment is one line the reader skips |
| IniConfig.Comment2Read | L2Market.Core/Configuration/IniConfigurationService.cs:211 | the second comment is one line the reader skips |
| IniConfig.HeadRead | L2Market.Core/Configuration/IniConfigurationService.cs:210-212 | the leading empty line is dropped and the comments change nothing |
| IniConfig.NamedPipeBlockOk | L2Market.Core/Configuration/IniConfigurationService.cs:213-219 | the written NamedPipe block has no empty line and no LF when the four stored timeouts print as plain text |
| IniConfig.NamedPipeBlockRead | L2Market.Core/Configuration/IniConfigurationService.cs:213-219 | the written NamedPipe block sets exactly the NamedPipe settings and leaves NamedPipe current, when the four stored timeouts survive their printed seconds |
| IniConfig.InjectionBlockOk | L2Market.Core/Configuration/IniConfigurationService.cs:220-225 | the written Injection block has no empty line and no LF when its text settings and two stored timeouts print as plain text |
| IniConfig.InjectionBlockRead | L2Market.Core/Configuration/IniConfigurationService.cs:220-225 | the written Injection block sets exactly the Injection settings when its text settings are plain and its two stored timeouts survive their printed seconds |
| IniConfig.UIBlockOk | L2Market.Core/Configuration/IniConfigurationService.cs:226-233 | the written UI block has no empty line and no LF when the theme is plain |
| IniConfig.UIBlockRead | L2Market.Core/Configuration/IniConfigurationService.cs:226-233 | the written UI block sets exactly the UI settings |
| IniConfig.BlockFiltered | L2Market.Core/Configuration/IniConfigurationService.cs:90 | a section's trailing empty line is the only line dropped |
| IniConfig.CreateIniContent | L2Market.Core/Configuration/IniConfigurationService.cs:206-237 | when the stored timeouts and texts print on one line, splitting the written text at LF gives back the comments, the three sections and their blank separators |
| IniConfig.ContentSplit | L2Market.Core/Configuration/IniConfigurationService.cs:206-237 | splitting the written content on LF gives back exactly the lines that were joined, when the stored texts and timeouts print without a LF |
| IniConfig.ContentIniLines | L2Market.Core/Configuration/IniConfigurationService.cs:206-237 | the reader visits the two comments and then the three written sections, when the stored texts and timeouts print as plain text |
| IniConfig.RoundTrip | L2Market.Core/Configuration/IniConfigurationService.cs:87-237 | parsing the written text does not throw and restores every setting when each text setting is plain and each of the six stored timeouts survives its printed seconds |
| IniConfig.WholeSecondsReadBack | L2Market.Core/Configuration/IniConfigurationService.cs:134-165 | a whole number of seconds within the 32-bit range prints as plain digits that `double.TryParse` and `TimeSpan.FromSeconds` read back to the same tick count |
| IniConfig.DefaultNamedPipeTimesRead | L2Market.Core/Configuration/IniConfigurationService.cs:214-218 | the four default NamedPipe timeouts, all whole seconds, survive their printed seconds |
| IniConfig.DefaultInjectionTimesRead | L2Market.Core/Configuration/IniConfigurationService.cs:221-222 | the two default Injection timeouts, all whole seconds, survive their printed seconds |
| IniConfig.DefaultTimesRead | L2Market.Core/Configuration/IniConfigurationService.cs:214-222 | the six default timeouts, all whole seconds, survive their printed seconds |
| IniConfig.ThrowsAppend | L2Market.Core/Configuration/IniConfigurationService.cs:93-123 | a run of lines throws exactly when its first part throws or its second part throws in the section the first part leaves |
| IniConfig.TimeoutOverflowAborts | L2Market.Core/Configuration/IniConfigurationService.cs:134-165 | an assignment of a timeout of the current section to a value `TimeSpan.FromSeconds` throws on makes the parse throw, whatever lines follow |
| IniConfig.ConnectionTimeoutIsTimeout | L2Market.Core/Configuration/IniConfigurationService.cs:132-136 | `ConnectionTimeout` in the NamedPipe section is a key read with `TimeSpan.FromSeconds` |
| IniConfig.HeaderThen | L2Market.Core/Configuration/IniConfigurationService.cs:99-103 | a header line never throws; the lines after it throw exactly when they do in the named section |
| IniConfig.SectionOverflowThrows | L2Market.Core/Configuration/IniConfigurationService.cs:99-165 | a section whose first assignment sets one of its timeouts to a value that throws makes the parse throw |
| IniConfig.NamedPipeOverflowThrows | L2Market.Core/Configuration/IniConfigurationService.cs:27-49 | "[NamedPipe]" then "ConnectionTimeout=v", with v accepted by `double.TryParse` but refused by `TimeSpan.FromSeconds` (such as 1e300), makes the parse throw, so loading keeps the defaults |
| IniConfig.AssignSafe | L2Market.Core/Configuration/IniConfigurationService.cs:105-165 | an assignment that does not set a timeout to a value that throws does not throw and keeps the current section |
| IniConfig.AssignmentsSafe | L2Market.Core/Configuration/IniConfigurationService.cs:93-165 | a run of assignments none of which sets a timeout of the section to a value that throws does not throw |
| IniConfig.SectionSafe | L2Market.Core/Configuration/IniConfigurationService.cs:99-165 | a written section none of whose pairs sets one of its timeouts to a value that throws does not throw |
| IniConfig.NamedPipeBlockSafe | L2Market.Core/Configuration/IniConfigurationService.cs:128-153 | the written NamedPipe block does not throw when its four timeouts read back; `MaxRetries` is read with `int.TryParse` |
| IniConfig.InjectionBlockSafe | L2Market.Core/Configuration/IniConfigurationService.cs:155-174 | the written Injection block does not throw when its two timeouts read back; the process name and DLL path are plain text |
| IniConfig.UIBlockSafe | L2Market.Core/Configuration/IniConfigurationService.cs:176-204 | the written UI block never throws: the UI section has no timeout |
| IniConfig.WrittenNeverThrows | L2Market.Core/Configuration/IniConfigurationService.cs:206-237 | a text `CreateIniContent` wrote does not make the parse throw when each stored timeout reads back and each text setting is plain |
| IniConfig.DefaultsRoundTrip | L2Market.Core/Configuration/IniConfigurationService.cs:87-237 | the default settings, written and read back, come back unchanged and without a throw |
| IniConfig.IniConfigurationService.constructor | L2Market.Core/Configuration/IniConfigurationService.cs:20-25 | a new service holds the defaults |
| IniConfig.IniConfigurationService.LoadSettings | L2Market.Core/Configuration/IniConfigurationService.cs:27-49 | an existing file's text is parsed, and when the parse throws the catch leaves the defaults; with no file the defaults are taken and written out |
| IniConfig.IniConfigurationService.SaveSettings | L2Market.Core/Configuration/IniConfigurationService.cs:51-64 | the text written is the current settings' INI content |
| IniConfig.IniConfigurationService.ResetToDefaults | L2Market.Core/Configuration/IniConfigurationService.cs:66-71 | the settings become the defaults, which are written out |
| IniConfig.IniConfigurationService.UpdateSetting | L2Market.Core/Configuration/IniConfigurationService.cs:73-85 | the key and value change nothing; the current settings are written out |
| Profiles.InvalidCharsListed | L2Market.Core/Services/ProfileService.cs:189 | a character is in the invalid file-name list exactly when Windows refuses it: a control below U+0020 or one of the nine reserved signs |
| Profiles.Sanitized | L2Market.Core/Services/ProfileService.cs:187-195 | the name keeps its length, every invalid character becomes '_', every other stays, and no invalid character is left |
| Profiles.ReplaceChar | L2Market.Core/Services/ProfileService.cs:192 | one character is replaced everywhere and nothing else changes |
| Profiles.SanitizeFileName | L2Market.Core/Services/ProfileService.cs:187-195 | the loop over the invalid characters computes the sanitised name |
| Profiles.SanitizeIdempotent | L2Market.Core/Services/ProfileService.cs:187-195 | sanitising a sanitised name changes nothing |
| Profiles.AppendLine | L2Market.Core/Services/ProfileService.cs:46-53 | appending a line adds it and CRLF to the text |
| Profiles.SetField | L2Market.Core/Services/ProfileService.cs:103-123 | setting a field fails exactly when it is a tracking flag and the value is not a boolean |
| Profiles.LineEntry | L2Market.Core/Services/ProfileService.cs:93-101 | a line's key and value, when it has one, are trimmed |
| Profiles.ProfileFileName | L2Market.Core/Services/ProfileService.cs:43 | the file name is the player name with every character Windows refuses replaced and every other one kept, followed by ".ini" |
| Profiles.SameFileIgnoringCase | L2Market.Core/Services/ProfileService.cs:43-44 | names that differ only in the case of their letters name one profile file, as Windows compares file names ignoring case |
| Profiles.AliceIsAlice | L2Market.Core/Services/ProfileService.cs:43-44 | "Alice" and "alice" save, load and delete the same file |
| Profiles.ParseProfile | L2Market.Core/Services/ProfileService.cs:88-133 | reading a file's text fails exactly when one of its lines sets a tracking flag to a value that is not a boolean |
| Profiles.StepFailsOnBadFlag | L2Market.Core/Services/ProfileService.cs:103-123 | a line fails only when it sets a tracking flag to a value that is not a boolean |
| Profiles.FoldFailsOnBadFlag | L2Market.Core/Services/ProfileService.cs:91-133 | a load that fails met a tracking-flag line whose value is not a boolean |
| Profiles.FoldFailsIff | L2Market.Core/Services/ProfileService.cs:91-133 | the lines fail to load exactly when one of them is a tracking-flag line whose value is not a boolean |
| Profiles.LoadResult | L2Market.Core/Services/ProfileService.cs:69-86 | an empty name, or a name whose file (compared ignoring case) is missing, loads nothing; otherwise the file's text is read |
| Profiles.ProfileService.constructor | L2Market.Core/Services/ProfileService.cs:17-28 | the service starts over the profiles directory as it is |
| Profiles.ProfileService.SaveProfile | L2Market.Core/Services/ProfileService.cs:33-64 | an empty name saves nothing; otherwise the profile's text replaces the file of its sanitised name plus ".ini", whatever the case of an existing file of that name |
| Profiles.ProfileService.LoadProfile | L2Market.Core/Services/ProfileService.cs:69-134 | the line-by-line load gives what the load function defines: nothing, or the file's profile, or nothing on a bad flag |
| Profiles.ProfileService.ProfileExists | L2Market.Core/Services/ProfileService.cs:139-155 | true exactly when the name is not empty and its file exists, file names compared ignoring case |
| Profiles.ProfileService.DeleteProfile | L2Market.Core/Services/ProfileService.cs:160-182 | removes the profile's file, compared ignoring case, exactly when the name is not empty and the file exists, and reports whether it did; otherwise the directory is unchanged |
| Profiles.ProfileTextAppended | L2Market.Core/Services/ProfileService.cs:46-55 | the written text is the header and six assignments appended one per line |
| Profiles.SkippedLine | L2Market.Core/Services/ProfileService.cs:93-98 | blank lines, '[' lines and lines without '=' change nothing |
| Profiles.UnknownKeyIgnored | L2Market.Core/Services/ProfileService.cs:103-123 | a key other than the six changes nothing |
| Profiles.KeysCaseSensitive | L2Market.Core/Services/ProfileService.cs:103 | keys match case-sensitively: "playername" and "SERVER" are unknown |
| Profiles.StepKeeps | L2Market.Core/Services/ProfileService.cs:91-124 | a line that does not name a field leaves that field as it was |
| Profiles.SetFieldKeeps | L2Market.Core/Services/ProfileService.cs:103-123 | setting one field leaves every other field as it was |
| Profiles.MissingKeyKeeps | L2Market.Core/Services/ProfileService.cs:88-124 | a field no line names keeps its starting value |
| Profiles.BadFlagStep | L2Market.Core/Services/ProfileService.cs:111-122 | a flag line whose value is not a boolean fails |
| Profiles.FailingLineFails | L2Market.Core/Services/ProfileService.cs:91-133 | a line no profile gets past ends the load with nothing, wherever it stands |
| Profiles.BadFlagFails | L2Market.Core/Services/ProfileService.cs:111-133 | one bad flag anywhere makes the whole load return nothing |
| Profiles.WriterKeysKnown | L2Market.Core/Services/ProfileService.cs:48-121 | every key the writer uses is a key the reader maps to the same field |
| Profiles.AssignmentSingleLine | L2Market.Core/Services/ProfileService.cs:48-53 | a key and value without line breaks make a single line |
| Profiles.AssignmentRead | L2Market.Core/Services/ProfileService.cs:96-101 | a written "Key=Value" line reads back as that key and value |
| Profiles.ProfileLinesRead | L2Market.Core/Services/ProfileService.cs:46-89 | reading the saved text's lines gives exactly the saved lines, when name and server are plain |
| Profiles.KeyNameRead | L2Market.Core/Services/ProfileService.cs:48-123 | every written key is plain and the reader maps it back to its own field |
| Profiles.FieldLineRead | L2Market.Core/Services/ProfileService.cs:96-123 | a field's written line, read back, copies exactly that field |
| Profiles.ProfileRoundTrip | L2Market.Core/Services/ProfileService.cs:33-134 | loading the saved text gives back every field, when name and server are plain |
| Profiles.SavedLinesRead | L2Market.Core/Services/ProfileService.cs:88-124 | the saved lines, applied to a new profile, rebuild the profile |
| Profiles.SaveThenLoad | L2Market.Core/Services/ProfileService.cs:33-134 | after saving, loading the same name, or the name with its letters in any other case, gives the saved profile back |
| Profiles.DeleteThenLoad | L2Market.Core/Services/ProfileService.cs:69-182 | after deleting, loading the name in any case of its letters gives nothing |
| PrivateStoreService.KeyParts | L2Market.Core/Services/PrivateStoreService.cs:192-204 | a generated key splits on '_' into exactly its three decimal numbers |
| PrivateStoreService.VendorOfItemKey | L2Market.Core/Services/PrivateStoreService.cs:192-204 | the vendor id read from a generated key is the offer's vendor |
| PrivateStoreService.KeyInjective | L2Market.Core/Services/PrivateStoreService.cs:201-204 | two offers share a key exactly when they share vendor, object and item id |
| PrivateStoreService.RemoveKeepsIndex | L2Market.Core/Services/PrivateStoreService.cs:97-111 | removing a stored offer and dropping its key from the item-id index, and the set when it empties, keeps the index exact |
| PrivateStoreService.StoreKeepsIndex | L2Market.Core/Services/PrivateStoreService.cs:114-122 | storing an offer under its key and indexing the key keeps the index exact |
| PrivateStoreService.Batch | L2Market.Core/Services/PrivateStoreService.cs:167-172 | the batch as a table holds exactly the batch's keys, each under the key it generates, each value an offer of the batch |
| PrivateStoreService.Stamped | L2Market.Core/Services/PrivateStoreService.cs:172 | the batch's keys get the time now and every other stamped key keeps its time |
| PrivateStoreService.BatchStep | L2Market.Core/Services/PrivateStoreService.cs:167-183 | one more offer puts it and the time under its key, a later offer winning |
| PrivateStoreService.RegularUpdateSteps | L2Market.Core/Services/PrivateStoreService.cs:136-183 | removing the batch vendors' keys the batch does not list and then storing the batch is the regular update |
| PrivateStoreService.OffersOf | L2Market.Core/Services/PrivateStoreService.cs:83-88 | a vendor's group holds exactly the batch offers of that vendor |
| PrivateStoreService.VendorInRange | L2Market.Core/Services/PrivateStoreService.cs:83-87 | every vendor grouped is a 32-bit id |
| PrivateStoreService.CleanupResult | L2Market.Core/Services/PrivateStoreService.cs:209-244 | removing the stored expired keys leaves exactly the unexpired offers, and the removed keys are those expired and stored |
| PrivateStoreService.OfStoreType | L2Market.Core/Services/PrivateStoreService.cs:50-55 | a store-type group holds exactly the page's offers of that type |
| PrivateStoreService.VendorOfStored | L2Market.Core/Services/PrivateStoreService.cs:192-204 | on a table whose keys are generated, a key's vendor is its offer's vendor |
| PrivateStoreService.RegularUpdateByVendor | L2Market.Core/Services/PrivateStoreService.cs:132-187 | after a regular update a batch vendor holds exactly its batch offers, of every store type, and other vendors keep theirs |
| PrivateStoreService.BulkKeepsOtherStoreTypes | L2Market.Core/Services/PrivateStoreService.cs:91-95 | a bulk sale keeps the vendor's offers of other store types unless a new offer reuses the key |
| PrivateStoreService.BulkReplacesBulkOffers | L2Market.Core/Services/PrivateStoreService.cs:91-122 | a vendor's earlier bulk offer survives its bulk sale exactly when the new offers list its key again |
| PrivateStoreService.BulkKeepsOtherVendors | L2Market.Core/Services/PrivateStoreService.cs:85-122 | a bulk sale leaves other vendors' offers alone |
| PrivateStoreService.CleanupExact | L2Market.Core/Services/PrivateStoreService.cs:217-223 | when every offer was stamped, the cleanup keeps exactly those seen at most five minutes ago |
| PrivateStoreService.Select | L2Market.Core/Services/PrivateStoreService.cs:279-446 | a query keeps exactly the stored offers its filter accepts, unchanged |
| PrivateStoreService.PriceRangeInclusive | L2Market.Core/Services/PrivateStoreService.cs:281-282 | the price filter includes both its bounds |
| PrivateStoreService.NoSlotNeverMatches | L2Market.Core/Services/PrivateStoreService.cs:369-370 | an offer with no slot bits is never found by a slot query |
| PrivateStoreService.Prices | L2Market.Core/Services/PrivateStoreService.cs:461-462 | the set of prices holds exactly the stored offers' prices |
| PrivateStoreService.Count | L2Market.Core/Services/PrivateStoreService.cs:463-471 | a filter's count is the number of stored offers it keeps, never more than the offers |
| PrivateStoreService.Vendors | L2Market.Core/Services/PrivateStoreService.cs:458 | the distinct vendor names are exactly the names of stored offers, no more of them than offers |
| PrivateStoreService.ItemTypes | L2Market.Core/Services/PrivateStoreService.cs:459 | the distinct item ids are exactly the item ids of stored offers, no more of them than offers |
| PrivateStoreService.AugmentedCount | L2Market.Core/Services/PrivateStoreService.cs:468 | counts the offers with a non-empty augmentation dictionary; zero exactly when no offer has one |
| PrivateStoreService.StatisticsOf | L2Market.Core/Services/PrivateStoreService.cs:451-471 | the total is the number of offers; min and max are 0 for no offers and otherwise bound every price and are prices of stored offers; every count is within the total, sell plus buy stores and the three item-type counts never exceed it |
| PrivateStoreService.StatisticsDisjoint | L2Market.Core/Services/PrivateStoreService.cs:463-464 | two filters no offer passes together (sell and buy store) count at most the stored offers between them |
| PrivateStoreService.StatisticsDisjoint3 | L2Market.Core/Services/PrivateStoreService.cs:465-467 | equipment, enhancement and grocery counts together never exceed the stored offers |
| PrivateStoreService.StatisticsCountQueries | L2Market.Core/Services/PrivateStoreService.cs:463-471 | the store-type, elemental, soul-crystal and visual-id counts are the sizes of the matching queries' answers |
| PrivateStoreService.PrivateStoreService.constructor | L2Market.Core/Services/PrivateStoreService.cs:28-40 | a new service has empty tables and its invariant holds |
| PrivateStoreService.PrivateStoreService.RemoveStored | L2Market.Core/Services/PrivateStoreService.cs:99-110 | removes the key's offer and its index entry, keeping the invariant |
| PrivateStoreService.PrivateStoreService.Store | L2Market.Core/Services/PrivateStoreService.cs:116-121 | stores and stamps the offer under its key and indexes the key, keeping the invariant |
| PrivateStoreService.PrivateStoreService.RemoveAll | L2Market.Core/Services/PrivateStoreService.cs:97-111 | removes a set of keys, keeping the invariant and the times |
| PrivateStoreService.PrivateStoreService.StoreAll | L2Market.Core/Services/PrivateStoreService.cs:114-122 | stores a batch in order: the table gains the batch, the times are stamped |
| PrivateStoreService.PrivateStoreService.UpdateItems | L2Market.Core/Services/PrivateStoreService.cs:132-187 | fails without change when two offers share a key; otherwise the table becomes the regular update and the batch is stamped |
| PrivateStoreService.PrivateStoreService.BulkSaleOfVendor | L2Market.Core/Services/PrivateStoreService.cs:87-122 | one vendor's earlier bulk offers go and the new ones come in, stamped |
| PrivateStoreService.PrivateStoreService.ProcessBulkSale | L2Market.Core/Services/PrivateStoreService.cs:78-127 | vendor by vendor in order of appearance, each vendor's bulk sale applied |
| PrivateStoreService.PrivateStoreService.HandleUpdated | L2Market.Core/Services/PrivateStoreService.cs:45-73 | the page is applied group by group in order of store type, bulk sales on the bulk path; a failing group ends the handler with earlier groups kept |
| PrivateStoreService.PrivateStoreService.ExpiredKeys | L2Market.Core/Services/PrivateStoreService.cs:213-223 | the keys last seen more than five minutes ago |
| PrivateStoreService.PrivateStoreService.RemoveExpired | L2Market.Core/Services/PrivateStoreService.cs:229-243 | removes the key's offer, its time and its index entry |
| PrivateStoreService.PrivateStoreService.CleanupExpired | L2Market.Core/Services/PrivateStoreService.cs:209-257 | the table keeps exactly the unexpired offers, their times go with them, and the count is the number removed |
| PrivateStoreService.PrivateStoreService.Clear | L2Market.Core/Services/PrivateStoreService.cs:293-299 | all three tables become empty |
| PrivateStoreService.PrivateStoreService.GetItemsByItemId | L2Market.Core/Services/PrivateStoreService.cs:264-277 | the indexed offers that are still stored; under the invariant exactly the stored offers of that item id |
| PrivateStoreService.PrivateStoreService.GetItemsCount | L2Market.Core/Services/PrivateStoreService.cs:288-291 | the number of stored offers |
| CommissionService.PrefixIds | L2Market.Core/Services/CommissionService.cs:68-82 | a batch's ids are those of all but its last listing plus the last listing's id |
| CommissionService.UpsertedKeys | L2Market.Core/Services/CommissionService.cs:68-70 | the update keeps every listing and adds exactly the batch's commission ids |
| CommissionService.UpsertedKeepsOthers | L2Market.Core/Services/CommissionService.cs:68-70 | a listing whose id the batch does not carry is left as it was |
| CommissionService.UpsertedLastWins | L2Market.Core/Services/CommissionService.cs:70 | the last listing of the batch with a given id is the one stored |
| CommissionService.StampedExact | L2Market.Core/Services/CommissionService.cs:71 | every batch id is stamped with now and other stamps are kept |
| CommissionService.IndexedCovers | L2Market.Core/Services/CommissionService.cs:74-81 | the update keeps every listing in its item id's index set |
| CommissionService.IndexedGrows | L2Market.Core/Services/CommissionService.cs:74-81 | the update never takes an id out of an index set |
| CommissionService.PurgeStep | L2Market.Core/Services/CommissionService.cs:159-165 | removing one more listing's id from its item id's set purges it as the whole removal does |
| CommissionService.CleanupExact | L2Market.Core/Services/CommissionService.cs:141-147 | the cleanup keeps exactly the listings seen at most ten minutes ago |
| CommissionService.CleanupResult | L2Market.Core/Services/CommissionService.cs:133-168 | the loop's removals are exactly the expired listings, leaving the unexpired ones |
| CommissionService.PurgedKeepsOthers | L2Market.Core/Services/CommissionService.cs:159-165 | only an expired listing's own item id loses its id; stale entries elsewhere stay |
| CommissionService.Select | L2Market.Core/Services/CommissionService.cs:108-303 | a query keeps exactly the stored listings its filter accepts, unchanged |
| CommissionService.ItemsUnder | L2Market.Core/Services/CommissionService.cs:93-106 | the index answers only stored listings, and with a covering index every listing of the item id |
| CommissionService.PriceRangeInclusive | L2Market.Core/Services/CommissionService.cs:110-111 | the price filter includes both its bounds |
| CommissionService.NamelessSellerNeverMatches | L2Market.Core/Services/CommissionService.cs:197 | a listing without a seller name is never found by name, not even by the empty name |
| CommissionService.ReplyTypeSelectsAll | L2Market.Core/Services/CommissionService.cs:217-222 | the reply-type query answers every listing, whatever the reply type |
| CommissionService.EndsWithinPlain | L2Market.Core/Services/CommissionService.cs:297-303 | with both times non-negative the end-time filter is the plain difference test |
| CommissionService.EndsWithinWraps | L2Market.Core/Services/CommissionService.cs:300 | a listing that ended at int.MinValue looks far from ending at time 1, the difference wrapping |
| CommissionService.RelistedStaysUnderOldItemId | L2Market.Core/Services/CommissionService.cs:74-106 | an id re-listed under another item id stays in the old item id's set, so the old item id's query answers the new listing |
| CommissionService.Count | L2Market.Core/Services/CommissionService.cs:324-330 | a count is at most the number of listings |
| CommissionService.Prices | L2Market.Core/Services/CommissionService.cs:322-323 | the price set holds exactly the listings' prices |
| CommissionService.Sellers | L2Market.Core/Services/CommissionService.cs:316-319 | the distinct seller names are at most the listings |
| CommissionService.SellersExact | L2Market.Core/Services/CommissionService.cs:316-319 | exactly the non-empty seller names of the listings are counted |
| CommissionService.ItemTypes | L2Market.Core/Services/CommissionService.cs:320 | the distinct item ids are at most the listings |
| CommissionService.ItemTypesExact | L2Market.Core/Services/CommissionService.cs:320 | exactly the listings' item ids are counted |
| CommissionService.BlessedCount | L2Market.Core/Services/CommissionService.cs:330 | the blessed count is at most the listings and is zero exactly when none is blessed |
| CommissionService.MinPrice | L2Market.Core/Services/CommissionService.cs:322 | 0 without listings; otherwise a listing's price at most every price |
| CommissionService.MaxPrice | L2Market.Core/Services/CommissionService.cs:323 | 0 without listings; otherwise a listing's price at least every price |
| CommissionService.StatisticsOf | L2Market.Core/Services/CommissionService.cs:308-334 | the total is the number of listings, min and max bound every price and are prices, and every count is at most the total |
| CommissionService.StatisticsCountQueries | L2Market.Core/Services/CommissionService.cs:324-329 | each feature count is the size of the matching query's answer, expiring soon meaning within 3600 seconds and high enchant from level 10 |
| CommissionService.CommissionService.constructor | L2Market.Core/Services/CommissionService.cs:28-40 | a new service has empty tables and its invariant holds |
| CommissionService.CommissionService.Upsert | L2Market.Core/Services/CommissionService.cs:70-81 | one listing is stored, stamped and indexed, keeping the invariant |
| CommissionService.CommissionService.UpdateItems | L2Market.Core/Services/CommissionService.cs:45-86 | every listing of the batch, in order, is upserted, stamped and indexed |
| CommissionService.CommissionService.ExpiredIds | L2Market.Core/Services/CommissionService.cs:137-147 | the ids last seen more than ten minutes ago |
| CommissionService.CommissionService.RemoveExpired | L2Market.Core/Services/CommissionService.cs:153-166 | removes the listing, its stamp and its id under its item id |
| CommissionService.CommissionService.CleanupExpired | L2Market.Core/Services/CommissionService.cs:133-181 | keeps exactly the unexpired listings, their stamps and a purged index, and counts the removals |
| CommissionService.CommissionService.Clear | L2Market.Core/Services/CommissionService.cs:122-128 | all three tables become empty |
| CommissionService.CommissionService.GetItemsByItemId | L2Market.Core/Services/CommissionService.cs:93-106 | only stored listings, and under the invariant every listing of the item id |
| CommissionService.CommissionService.GetItemsCount | L2Market.Core/Services/CommissionService.cs:117-120 | the number of stored listings |
| WorldExchangeService.PrefixIds | L2Market.Core/Services/WorldExchangeService.cs:70-73 | a batch's ids are those of all but its last listing plus the last listing's id |
| WorldExchangeService.UpsertedKeys | L2Market.Core/Services/WorldExchangeService.cs:70-72 | the update keeps every listing and adds exactly the batch's world-exchange ids |
| WorldExchangeService.UpsertedKeepsOthers | L2Market.Core/Services/WorldExchangeService.cs:70-72 | a listing whose id the batch does not carry is left as it was |
| WorldExchangeService.UpsertedLastWins | L2Market.Core/Services/WorldExchangeService.cs:72 | the last listing of the batch with a given id is the one stored |
| WorldExchangeService.StampedExact | L2Market.Core/Services/WorldExchangeService.cs:73 | every batch id is stamped with the update time and other stamps are kept |
| WorldExchangeService.IndexedCovers | L2Market.Core/Services/WorldExchangeService.cs:76-83 | the update keeps every listing in the non-empty index set of its item id |
| WorldExchangeService.CategorizedExact | L2Market.Core/Services/WorldExchangeService.cs:86-96 | with a category its set gains exactly the batch's ids and no other category changes; without one the category index is unchanged |
| WorldExchangeService.IndexWithIs | L2Market.Core/Services/WorldExchangeService.cs:76-83 | adding an id under a key creates the set or extends it, as one map update |
| WorldExchangeService.CategorizedWithin | L2Market.Core/Services/WorldExchangeService.cs:86-96 | the update keeps every category set non-empty and within the stored listings |
| WorldExchangeService.UpsertKeepsValid | L2Market.Core/Services/WorldExchangeService.cs:72-96 | storing and indexing one listing keeps both indexes valid |
| WorldExchangeService.Uncategorized | L2Market.Core/Services/WorldExchangeService.cs:185-195 | after the cleanup each category keeps exactly its ids that were not removed, and a category left empty is dropped |
| WorldExchangeService.PurgeStep | L2Market.Core/Services/WorldExchangeService.cs:175-182 | removing one more listing from its item id's set purges it as the whole removal does |
| WorldExchangeService.UncategorizedStep | L2Market.Core/Services/WorldExchangeService.cs:185-195 | taking one more id out of every category set equals taking the larger set of ids out |
| WorldExchangeService.UncategorizedNothing | L2Market.Core/Services/WorldExchangeService.cs:185-195 | removing nothing leaves a category index of non-empty sets unchanged |
| WorldExchangeService.CleanupExact | L2Market.Core/Services/WorldExchangeService.cs:157-163 | a listing survives the cleanup exactly when it was last seen no more than fifteen minutes ago |
| WorldExchangeService.CleanupResult | L2Market.Core/Services/WorldExchangeService.cs:157-197 | the ids the removal loop drops are exactly the expired listings, and the listings left are the unexpired ones |
| WorldExchangeService.Select | L2Market.Core/Services/WorldExchangeService.cs:240-359 | a filter keeps exactly the stored listings that satisfy it, unchanged |
| WorldExchangeService.Present | L2Market.Core/Services/WorldExchangeService.cs:110-115 | answering through an index set gives exactly the ids of that set that are still stored |
| WorldExchangeService.ItemsUnderComplete | L2Market.Core/Services/WorldExchangeService.cs:108-121 | through the item-id index every stored listing of that item id is found |
| WorldExchangeService.CategoryAnswersWholeSet | L2Market.Core/Services/WorldExchangeService.cs:223-235 | through the category index the presence filter drops nothing: the answer is the whole set |
| WorldExchangeService.PriceRangeInclusive | L2Market.Core/Services/WorldExchangeService.cs:123-130 | the price filter includes both of its bounds |
| WorldExchangeService.HighPriceIsNegative | L2Market.Core/Services/WorldExchangeService.cs:126 | a price from 2^63 on is cast to a negative long, so it fails every non-negative range |
| WorldExchangeService.LowPriceIsItself | L2Market.Core/Services/WorldExchangeService.cs:126 | a price below 2^63 is compared as it is |
| WorldExchangeService.SubTypeSelectsAll | L2Market.Core/Services/WorldExchangeService.cs:284-291 | the sub-type query answers every listing, whatever the sub-type |
| WorldExchangeService.Count | L2Market.Core/Services/WorldExchangeService.cs:377-386 | a count is the number of stored listings the filter keeps, never more than the listings |
| WorldExchangeService.Prices | L2Market.Core/Services/WorldExchangeService.cs:375-376 | the price set holds exactly the prices of the stored listings |
| WorldExchangeService.ItemTypes | L2Market.Core/Services/WorldExchangeService.cs:372 | there are no more distinct item ids than listings |
| WorldExchangeService.ItemTypesExact | L2Market.Core/Services/WorldExchangeService.cs:372 | an item id is counted exactly when some stored listing has it |
| WorldExchangeService.MinPrice | L2Market.Core/Services/WorldExchangeService.cs:375 | the least unsigned price cast to long, 0 without listings |
| WorldExchangeService.MaxPrice | L2Market.Core/Services/WorldExchangeService.cs:376 | the greatest unsigned price cast to long, 0 without listings |
| WorldExchangeService.PriceBoundsOrdered | L2Market.Core/Services/WorldExchangeService.cs:375-376 | with every price below 2^63 the reported least and greatest prices bound every price |
| WorldExchangeService.PriceBoundsStraddle | L2Market.Core/Services/WorldExchangeService.cs:375-376 | prices on both sides of 2^63 make the reported least price exceed the reported greatest |
| WorldExchangeService.StatisticsOf | L2Market.Core/Services/WorldExchangeService.cs:364-391 | the totals, the category count and every per-feature count are bounded by the listings; expiring-soon, high-enchant and blessed counts are those of the matching filters; no listings give prices 0 |
| WorldExchangeService.WorldExchangeService.constructor | L2Market.Core/Services/WorldExchangeService.cs:29-42 | a new tracker has four empty tables and is valid |
| WorldExchangeService.WorldExchangeService.Upsert | L2Market.Core/Services/WorldExchangeService.cs:72-96 | one listing is stored, stamped and added to its item id's set and to the batch's category, keeping the indexes valid |
| WorldExchangeService.WorldExchangeService.UpdateItems | L2Market.Core/Services/WorldExchangeService.cs:63-101 | the tables become the batch applied listing by listing in order, keeping the indexes valid |
| WorldExchangeService.WorldExchangeService.ExpiredIds | L2Market.Core/Services/WorldExchangeService.cs:157-163 | the scan collects exactly the ids last seen more than fifteen minutes ago |
| WorldExchangeService.WorldExchangeService.RemoveFromCategories | L2Market.Core/Services/WorldExchangeService.cs:185-195 | over a snapshot of the category keys the id leaves every set and emptied sets are dropped; nothing else changes |
| WorldExchangeService.WorldExchangeService.RemoveExpired | L2Market.Core/Services/WorldExchangeService.cs:169-195 | one expired listing leaves the listings, the stamps, its item id's set and every category, keeping the indexes valid |
| WorldExchangeService.WorldExchangeService.CleanupExpired | L2Market.Core/Services/WorldExchangeService.cs:149-210 | exactly the unexpired listings remain, the indexes lose the removed ids, and the count is the number removed |
| WorldExchangeService.WorldExchangeService.Clear | L2Market.Core/Services/WorldExchangeService.cs:137-144 | all four tables are empty afterwards |
| WorldExchangeService.WorldExchangeService.GetItemsByItemId | L2Market.Core/Services/WorldExchangeService.cs:108-121 | only stored listings are answered, and under the invariant every stored listing of the item id is |
| WorldExchangeService.WorldExchangeService.GetItemsByCategory | L2Market.Core/Services/WorldExchangeService.cs:223-235 | only stored listings are answered; an unknown category gives nothing, and under the invariant a known one gives its whole set |
| WorldExchangeService.WorldExchangeService.GetItemsCount | L2Market.Core/Services/WorldExchangeService.cs:132-135 | the number of stored listings |
| MarketManagerService.Combine | L2Market.Core/Services/MarketManagerService.cs:87-95 | the total count of a search result is the sum of the sizes of its three answers |
| MarketManagerService.MarketManagerService.constructor | L2Market.Core/Services/MarketManagerService.cs:20-30 | the manager keeps the three trackers it was given |
| MarketManagerService.MarketManagerService.OverviewStatistics | L2Market.Core/Services/MarketManagerService.cs:50-64 | the overview total is the number of stored listings of the three markets, the sum of their item counts |
| MarketManagerService.MarketManagerService.ClearAll | L2Market.Core/Services/MarketManagerService.cs:69-76 | all tables of the private stores, the commissions and the world exchange are empty afterwards, and the manager stays valid |
| MarketManagerService.MarketManagerService.SearchItemsByItemId | L2Market.Core/Services/MarketManagerService.cs:81-96 | the item id is echoed, each market answers only stored listings and under the invariant every stored listing of that item id, and the total is the sum of the three answers |
| MarketManagerService.MarketManagerService.SearchItemsByPriceRange | L2Market.Core/Services/MarketManagerService.cs:101-116 | the item id is 0, each market answers exactly its listings priced within the inclusive range (the world exchange comparing its price cast to long), and the total is the sum |
| MarketItemView.FormattedPrice | L2Market.Domain/Models/MarketItemViewModel.cs:76-106 | a price below 1000 is shown as is, a larger one scaled by the largest of thousand, million, billion or trillion not above it, and the shown value stays the price |
| MarketItemView.PriceUnitsAgree | L2Market.Domain/Models/MarketItemViewModel.cs:76-106 | the row's price text uses the same unit as the decoders' price formatter below a trillion, and a unit a thousand times larger from a trillion up |
| MarketItemView.FormattedEnchantLevel | L2Market.Domain/Models/MarketItemViewModel.cs:320 | the enchant text is empty exactly when the level is not positive |
| MarketItemView.EnchantTextsAgree | L2Market.Domain/Models/MarketItemViewModel.cs:320 | for a positive level the row's enchant text equals the decoders' one, and for a negative level the two differ |
| MarketItemView.StatusIcons | L2Market.Domain/Models/MarketItemViewModel.cs:415-421 | one icon per set flag, each icon present exactly when its flag is set, augmentation first and blessing last |
| MarketItemView.Lifetime | L2Market.Domain/Models/MarketItemViewModel.cs:424-433 | a row lives ten minutes exactly when its market names the commission house and no private store, fifteen exactly when it names the world exchange and neither of the others, five minutes otherwise |
| MarketItemView.TimeUntilExpiry | L2Market.Domain/Models/MarketItemViewModel.cs:325-339 | "Истек" exactly when no time is left, "<1 мин" exactly under a minute, otherwise the whole number of minutes left |
| MarketItemView.TimeUntilExpiryColor | L2Market.Domain/Models/MarketItemViewModel.cs:343-360 | red exactly when no time is left and green exactly from two minutes up |
| MarketItemView.ExpiryColorMatchesText | L2Market.Domain/Models/MarketItemViewModel.cs:325-360 | the colour and the text agree: red with "Истек", orange with "<1 мин", yellow with "1 мин" |
| MarketItemView.FreshListingShowsLifetime | L2Market.Domain/Models/MarketItemViewModel.cs:325-360 | a listing seen just now shows its whole lifetime in minutes, in green |
| MarketItemView.Placeholder | L2Market.Domain/Models/MarketItemViewModel.cs:364-368 | a formatted field is never empty: the text itself, or a dash when the text is empty |
| MarketItemView.MarketTypeColor | L2Market.Domain/Models/MarketItemViewModel.cs:371-390 | the grey colour of an unknown market is given exactly when the text names no private store and is neither exactly "Комиссия" nor exactly "Мировой обмен" |
| MarketItemView.MarketTypeIcon | L2Market.Domain/Models/MarketItemViewModel.cs:393-412 | the question mark of an unknown market is given exactly when the text names no private store and is neither exactly "Комиссия" nor exactly "Мировой обмен" |
| MarketItemView.ColorIconAgree | L2Market.Domain/Models/MarketItemViewModel.cs:371-412 | two market texts get the same colour exactly when they get the same icon |
| MarketItemView.IntendedMarketTypeColor | L2Market.Domain/Models/MarketItemViewModel.cs:371-390 | the corrected colour, found by search like the lifetime, agrees with the written one for private stores and the exact commission text |
| MarketItemView.IntendedMarketTypeIcon | L2Market.Domain/Models/MarketItemViewModel.cs:393-412 | the corrected icon agrees with the written one for private stores and the exact commission text |
| MarketItemView.IntendedFollowsLifetime | L2Market.Domain/Models/MarketItemViewModel.cs:371-433 | with the correction, the commission colour goes exactly with the ten-minute lifetime and the world-exchange colour and icon exactly with the fifteen-minute one |
| MarketItemView.ElementLabelCodes | L2Market.Domain/Models/MarketItemViewModel.cs:731-744 | the element labels have distinct codes, the same codes as the decoders' element table |
| MarketItemView.ElementLabelNames | L2Market.Domain/Models/MarketItemViewModel.cs:731-744 | the element labels are distinct and none looks like the unknown-element text |
| MarketItemView.ElementLabelsDecorate | L2Market.Domain/Models/MarketItemViewModel.cs:736-741 | each of the six element labels is the decoders' element name behind its icon |
| MarketItemView.GetElementName | L2Market.Domain/Models/MarketItemViewModel.cs:731-744 | -2 reads as "no attribute", 0 to 5 as the element's icon and name, every other code as "Неизвестный (n)" |
| MarketItemView.ElementNameDecorates | L2Market.Domain/Models/MarketItemViewModel.cs:731-744 | an element 0 to 5 is named as the decoders name it behind an icon, other codes except -2 exactly as the decoders name them, and different codes get different names |
| MarketItemView.DecodeCommissionType | L2Market.Domain/Models/MarketItemViewModel.cs:800-809 | codes 0, 1 and 2 read as regular, premium and VIP, every other code as "Неизвестный (n)" |
| MarketItemView.CommissionTypeIdentifies | L2Market.Domain/Models/MarketItemViewModel.cs:800-809 | codes 0 to 2 are known, any other is shown as unknown with its number, and different codes get different texts |
| MarketItemView.CommissionTypeTable | L2Market.Domain/Models/MarketItemViewModel.cs:804-806 | the commission types have distinct codes and distinct names, none looking like the unknown text |
| MarketItemView.DecodeDurationType | L2Market.Domain/Models/MarketItemViewModel.cs:811-822 | codes 0 to 4 read as 1, 3, 7, 14 and 30 days, every other code as "Неизвестный (n)" |
| MarketItemView.DurationTypeIdentifies | L2Market.Domain/Models/MarketItemViewModel.cs:811-822 | codes 0 to 4 are known, any other is shown as unknown with its number, and different codes get different texts |
| MarketItemView.DurationTypeTable | L2Market.Domain/Models/MarketItemViewModel.cs:815-819 | the durations have distinct codes and distinct names, none looking like the unknown text |
| MarketItemView.AttackLine | L2Market.Domain/Models/MarketItemViewModel.cs:693-701 | an attack entry is produced exactly when both attack keys are present and the power is positive, and it shows the element's name and the power |
| MarketItemView.FormatAttackAttributeFromElementalAttrs | L2Market.Domain/Models/MarketItemViewModel.cs:756-768 | the attack text is non-empty exactly when the dictionary has both attack keys and a positive power, and then starts with the sword |
| MarketItemView.DefenceEntries | L2Market.Domain/Models/MarketItemViewModel.cs:774-781 | one entry per defence in the fixed order fire, water, wind, earth, holy, dark, each with its label and its value or zero when absent |
| MarketItemView.ShownEntry | L2Market.Domain/Models/MarketItemViewModel.cs:786-789 | a defence entry is shown exactly when its value is positive |
| MarketItemView.ShownEmptyIff | L2Market.Domain/Models/MarketItemViewModel.cs:783-792 | no defence is shown exactly when no value is positive, and every shown part is non-empty |
| MarketItemView.DefenceLine | L2Market.Domain/Models/MarketItemViewModel.cs:714-726 | the defence column of the elemental text is present exactly when some defence value is positive |
| MarketItemView.DefenceText | L2Market.Domain/Models/MarketItemViewModel.cs:770-798 | the defence text is non-empty exactly when there is a dictionary with a positive defence, and then starts with the shield |
| MarketItemView.CollectDefences | L2Market.Domain/Models/MarketItemViewModel.cs:783-790 | the loop collects exactly the shown defences, in the fixed order |
| MarketItemView.FormatDefenceAttributesFromElementalAttrs | L2Market.Domain/Models/MarketItemViewModel.cs:770-798 | the method computes the defence text |
| MarketItemView.ElementalText | L2Market.Domain/Models/MarketItemViewModel.cs:686-729 | the elemental text is empty for a missing or empty dictionary |
| MarketItemView.FormatElementalAttrs | L2Market.Domain/Models/MarketItemViewModel.cs:686-729 | the method computes the elemental text |
| MarketItemView.ElementalJoinsColumns | L2Market.Domain/Models/MarketItemViewModel.cs:686-798 | the elemental text is the non-empty ones of the attack text and the defence text joined by a vertical bar, so the three formatters agree |
| MarketItemView.FormatSoulCrystalInfo | L2Market.Domain/Models/MarketItemViewModel.cs:663-669 | the soul crystal text is empty exactly when neither option list has an element |
| MarketItemView.FormatWorldExchangeSoulCrystal | L2Market.Domain/Models/MarketItemViewModel.cs:671-678 | the world-exchange soul crystal text is empty exactly when all three options are zero |
| MarketItemView.FormatAugmentationInfo | L2Market.Domain/Models/MarketItemViewModel.cs:680-684 | the augmentation text is empty exactly when there is no entry, and otherwise starts with its icon |
| MarketItemView.FormatEnchantEffects | L2Market.Domain/Models/MarketItemViewModel.cs:746-754 | the effects text is empty exactly when there is no effect, and otherwise starts with its icon |
| MarketItemView.FormatEndTime | L2Market.Domain/Models/MarketItemViewModel.cs:638-643 | an end time of zero shows "Бессрочно", any other the formatted date |
| MarketItemView.FormatAttackAttribute | L2Market.Domain/Models/MarketItemViewModel.cs:645-649 | the attack text is empty exactly when the type or the value is zero |
| MarketItemView.FormatDefenceAttributes | L2Market.Domain/Models/MarketItemViewModel.cs:651-661 | the defence text is empty exactly when all six values are zero |
| MarketItemView.Saturate | L2Market.Domain/Models/MarketItemViewModel.cs:527-529 | capping a 64-bit price at the largest 64-bit value leaves it unchanged |
| MarketItemView.FromPrivateStoreItem | L2Market.Domain/Models/MarketItemViewModel.cs:443-506 | a private-store row is stamped with the time it was seen and names the private store with its store type |
| MarketItemView.FromCommissionItem | L2Market.Domain/Models/MarketItemViewModel.cs:508-573 | a commission row is stamped with the time it was seen and names the commission house |
| MarketItemView.FromWorldExchangeItem | L2Market.Domain/Models/MarketItemViewModel.cs:575-635 | a world-exchange row is stamped with the time it was seen and names the world exchange behind its globe |
| MarketItemView.PrivateStoreRow | L2Market.Domain/Models/MarketItemViewModel.cs:443-506 | price, seller and item id come from the listing, the augmentation flag agrees with its text, a soul crystal flag has a text, and there is no end time, commission id or exchange id |
| MarketItemView.CommissionRow | L2Market.Domain/Models/MarketItemViewModel.cs:508-573 | price, count and body part pass unchanged, the seller is the listing's or "Неизвестно", and the end time is "Бессрочно" exactly for 0 |
| MarketItemView.CommissionFlags | L2Market.Domain/Models/MarketItemViewModel.cs:508-573 | the augmentation flag agrees with its text, a soul crystal flag has a text, there is no exchange id, and the location column names the commission house |
| MarketItemView.WorldExchangeRow | L2Market.Domain/Models/MarketItemViewModel.cs:575-635 | price and count turn negative exactly when the unsigned value exceeds the largest signed one, the end time is "Бессрочно" exactly for 0, and effects are shown exactly for a positive enchant level |
| MarketItemView.WorldExchangeFlags | L2Market.Domain/Models/MarketItemViewModel.cs:575-635 | the augmentation flag agrees with its text and a soul crystal flag has a text |
| MarketItemView.KnownStoreWord | L2Market.Domain/Models/MarketItemViewModel.cs:377-380 | a known store type's market text contains the word of a known store type exactly when the two types are the same |
| MarketItemView.OtherStoreWords | L2Market.Domain/Models/MarketItemViewModel.cs:377-380 | the market text of an unknown store type contains none of the words sale, purchase and package sale |
| MarketItemView.StoreWords | L2Market.Domain/Models/MarketItemViewModel.cs:377-380 | every private-store text names the private store, and contains the sale, purchase or package-sale word exactly for store type 0, 1 or 2 |
| MarketItemView.PrivateStoreBadges | L2Market.Domain/Models/MarketItemViewModel.cs:371-433 | a private-store row lives five minutes and has the colour and icon of its store type, the generic shop for an unknown type |
| MarketItemView.CommissionBadges | L2Market.Domain/Models/MarketItemViewModel.cs:371-433 | a commission row lives ten minutes and has the commission colour and icon |
| MarketItemView.WorldExchangeBadges | L2Market.Domain/Models/MarketItemViewModel.cs:383-388 | as written, a world-exchange row lives fifteen minutes but gets the grey colour and the question mark of an unknown market |
| MarketItemView.WorldExchangeIntendedBadges | L2Market.Domain/Models/MarketItemViewModel.cs:383-388 | with the corrected switch, a world-exchange row gets the purple colour and the globe |
| MarketItemView.PrivateStoreAttackHidden | L2Market.Domain/Models/MarketItemViewModel.cs:503-504 | as written, no private-store row shows an attack, an elemental text or a defence text, whatever the attack power on the wire |
| MarketItemView.IntendedStoreAttackShown | L2Market.Domain/Models/MarketItemViewModel.cs:503-504 | reading the decoder's own keys, a private-store row shows an attack exactly when the elemental flag is set and the power is positive, with the element's name and the power |
| TrackingRules.TrackingRule.constructor | L2Market.Domain/Models/TrackingRule.cs:11-26 | a new rule keeps the fields it is given, is enabled with notifications and without auto-buy by default, and has no match yet |
| TrackingService.ActiveRules | L2Market.Core/Services/TrackingService.cs:123 | every rule taking part in a batch is stored, enabled and watches the batch's market or every market |
| TrackingService.ActiveRulesExact | L2Market.Core/Services/TrackingService.cs:123 | enumerating every key, the rules taking part are exactly the stored rules that apply, each once |
| TrackingService.Fired | L2Market.Core/Services/TrackingService.cs:142-151 | no more events are raised than matches found |
| TrackingService.FiredExactly | L2Market.Core/Services/TrackingService.cs:142-151 | an event is raised for exactly the matches whose rule asks for it at that price |
| TrackingService.FiredAppend | L2Market.Core/Services/TrackingService.cs:125-154 | the events of two runs of matches are those of the first followed by those of the second |
| TrackingService.Hits | L2Market.Core/Services/TrackingService.cs:125-131 | a rule counts at most one match per row |
| TrackingService.Increment | L2Market.Core/Services/TrackingService.cs:131 | the match counter steps by one on a 32-bit integer, wrapping at the top |
| TrackingService.WrapStep | L2Market.Core/Services/TrackingService.cs:131 | one step after a wrapped count is the same as wrapping one step later |
| TrackingService.BumpedWraps | L2Market.Core/Services/TrackingService.cs:131 | n increments add n to the count modulo 2^32 |
| TrackingService.ItemIdMatches | L2Market.Core/Services/TrackingService.cs:162-173 | a row whose item id is a number's text matches exactly when that number is the rule's item id and the price is within the maximum |
| TrackingService.PrivateStoreRowMatches | L2Market.Core/Services/TrackingService.cs:97-100 | a private-store listing matches a rule exactly by its item id and its price |
| TrackingService.CommissionRowMatches | L2Market.Core/Services/TrackingService.cs:105-108 | a commission listing matches a rule exactly by its item id and its unit price |
| TrackingService.WorldExchangeRowMatches | L2Market.Core/Services/TrackingService.cs:113-116 | a world-exchange listing matches by item id and its price read as signed, so a price above the largest signed value passes any non-negative maximum |
| TrackingService.TrackingService.constructor | L2Market.Core/Services/TrackingService.cs:24-40 | the service starts with no rules |
| TrackingService.TrackingService.AddRule | L2Market.Core/Services/TrackingService.cs:48-54 | a missing rule throws and changes nothing; a rule whose id is taken leaves the stored one; otherwise the rule is stored under its id |
| TrackingService.TrackingService.RemoveRule | L2Market.Core/Services/TrackingService.cs:59-65 | the rule with that id, if any, is dropped and nothing else changes |
| TrackingService.TrackingService.UpdateRule | L2Market.Core/Services/TrackingService.cs:70-76 | a missing rule throws and changes nothing; otherwise the rule is stored under its id, added or replacing |
| TrackingService.TrackingService.GetRules | L2Market.Core/Services/TrackingService.cs:81-84 | every stored rule is returned, nothing else, one per id |
| TrackingService.TrackingService.GetActiveRules | L2Market.Core/Services/TrackingService.cs:89-92 | exactly the enabled stored rules are returned |
| TrackingService.TrackingService.CheckItemsAgainstRules | L2Market.Core/Services/TrackingService.cs:121-157 | each applying rule's counter grows by the rows it matches and its last match is the check time when it matched any, other rules are untouched, and the notifications and auto-buys are exactly the firing matches in row-then-rule order |
| TrackingService.CheckBatch | L2Market.Core/Services/TrackingService.cs:125-155 | row after row, each active rule's counter grows by the rows it matches and it is stamped with the check time exactly when it matched one; the events raised are the firing matches of the whole batch in order |
| TrackingService.CheckRow | L2Market.Core/Services/TrackingService.cs:127-153 | for one row, each matching rule counts it and is stamped, the others are untouched, and the events are the row's firing matches in rule order |
| TrackingService.BatchStep | L2Market.Core/Services/TrackingService.cs:125-154 | one more row adds its events after those of the earlier rows |
| TrackingService.HitsStep | L2Market.Core/Services/TrackingService.cs:129-131 | one more row adds one hit to a rule exactly when it matches |
| TrackingService.RowStep | L2Market.Core/Services/TrackingService.cs:127-153 | one more rule adds its match, if any, after the earlier ones, and it fires as it alone would |
| TrackingService.Record | L2Market.Core/Services/TrackingService.cs:131-132 | a match increments the rule's counter and sets its last match to the time of the check |
| TrackingService.KeyedValues | L2Market.Core/Services/TrackingService.cs:20 | rules stored under their own ids have as many values as keys, and each value is stored under its id |
| AutoBuyService.AutoBuyService.constructor | L2Market.Core/Services/AutoBuyService.cs:15-20 | the service starts with ten million to spend |
| AutoBuyService.AutoBuyService.TryAutoBuy | L2Market.Core/Services/AutoBuyService.cs:34-75 | a purchase happens exactly when there is a match, its price is at most the money and the purchase succeeds; it subtracts the price with 64-bit wrap-around, and every other outcome leaves the money as it was |
| AutoBuyService.AutoBuyService.TryAutoBuyChecked | L2Market.Core/Services/AutoBuyService.cs:34-75 | with negative prices refused, a purchase subtracts exactly the price and the money stays between zero and what it was |
| AutoBuyService.AutoBuyService.AddMoney | L2Market.Core/Services/AutoBuyService.cs:118-122 | the amount is added with 64-bit wrap-around, and exactly added when the sum stays in range |
| AutoBuyService.AutoBuyService.GetFormattedMoney | L2Market.Core/Services/AutoBuyService.cs:127-136 | the money is written in billions, millions, thousands or grouped digits exactly as the decoders' price formatter writes a price |
| AutoBuyService.WrapInRange | L2Market.Core/Services/AutoBuyService.cs:60 | a value already in the 64-bit range is not changed by wrapping |
| AutoBuyService.AffordablePurchaseInRange | L2Market.Core/Services/AutoBuyService.cs:42-60 | a price between zero and the money is subtracted without wrapping and leaves the money between zero and what it was |
| AutoBuyService.NegativePriceWrapsMoney | L2Market.Core/Services/AutoBuyService.cs:42-60 | as written, the smallest 64-bit price passes the balance check against the initial money and its purchase wraps the money to a negative value |
| MarketQueryService.IssuedBelow | L2Market.Core/Services/MarketQueryService.cs:70-74 | the timers created so far carry exactly the serial numbers below the count |
| MarketQueryService.PeriodMilliseconds | L2Market.Core/Services/MarketQueryService.cs:70-74 | the period the timer is given is the interval in whole milliseconds, truncated toward zero |
| MarketQueryService.PeriodAcceptedRange | L2Market.Core/Services/MarketQueryService.cs:70-74 | the timer constructor accepts exactly the intervals above -2 ms and below 0xFFFFFFFF ms |
| MarketQueryService.FiftyDaysRefused | L2Market.Core/Services/MarketQueryService.cs:70-74 | an interval of fifty days is refused by the timer constructor |
| MarketQueryService.GetMarketTypeName | L2Market.Core/Services/MarketQueryService.cs:277-286 | only the "All" type is named "All" |
| MarketQueryService.MarketTypeNamesDistinct | L2Market.Core/Services/MarketQueryService.cs:277-286 | two market types get the same name exactly when they are the same |
| MarketQueryService.EnabledCount | L2Market.Core/Services/MarketQueryService.cs:319 | the enabled rules of a list are never more than the list |
| MarketQueryService.EnabledCountIsSize | L2Market.Core/Services/MarketQueryService.cs:319 | in a list without repeats, the count of enabled entries is the number of enabled rules |
| MarketQueryService.RemoveFirst | L2Market.Core/Services/MarketQueryService.cs:141 | removing a rule takes out one occurrence of it and keeps every other element |
| MarketQueryService.RemoveFirstDistinct | L2Market.Core/Services/MarketQueryService.cs:141 | from a list without repeats, removing a rule leaves a list without repeats holding exactly the other rules |
| MarketQueryService.SerialsAfterPut | L2Market.Core/Services/MarketQueryService.cs:61-74 | storing a fresh timer keeps the serials distinct and swaps the replaced timer's serial, if any, for the new one |
| MarketQueryService.SerialsAfterRemove | L2Market.Core/Services/MarketQueryService.cs:94-98 | dropping a timer keeps the serials distinct and removes exactly its serial |
| MarketQueryService.MarketQueryService.constructor | L2Market.Core/Services/MarketQueryService.cs:26-46 | no timer runs and each of the three markets has an empty rule list, none for "All" |
| MarketQueryService.MarketQueryService.IsTrackingActive | L2Market.Core/Services/MarketQueryService.cs:300-308 | never active for All; on a valid service, active exactly when the market has a timer |
| MarketQueryService.MarketQueryService.StartQuerying | L2Market.Core/Services/MarketQueryService.cs:51-79 | "All" changes nothing; otherwise the market's timer is disposed and, when the timer constructor accepts the interval, a new timer with it replaces the old one and the market is tracked; when it refuses the interval the call throws, the disposed timer stays in the map and the market still counts as tracked |
| MarketQueryService.MarketQueryService.StopQuerying | L2Market.Core/Services/MarketQueryService.cs:84-104 | a running timer of the market is disposed and removed, "All" or a market without timer changes nothing, and afterwards the market is not tracked; a service whose map holds no disposed timer keeps it so |
| MarketQueryService.MarketQueryService.AddRule | L2Market.Core/Services/MarketQueryService.cs:109-126 | a rule is appended to its market's list unless it is already there or watches "All", and the timers are untouched |
| MarketQueryService.MarketQueryService.RemoveRule | L2Market.Core/Services/MarketQueryService.cs:131-145 | the rule leaves its market's list and is no longer in it, an "All" rule changes nothing, and the timers are untouched |
| MarketQueryService.MarketQueryService.GetActiveRulesCount | L2Market.Core/Services/MarketQueryService.cs:313-321 | zero for "All", otherwise the number of enabled rules of the market |
| MarketQueryService.MarketQueryService.Dispose | L2Market.Core/Services/MarketQueryService.cs:323-333 | every running timer is disposed and none is left; the rules stay, and no disposed timer is left in the map |
| MarketQueryService.SendMarketQuery | L2Market.Core/Services/MarketQueryService.cs:171-272 | the commands sent are a prefix of the opening followed by every listing request; all are sent when no opening command throws, and a shorter run stops right after the first opening command that throws |
| MarketQueryService.WorldExchangeTypes | L2Market.Core/Services/MarketQueryService.cs:245-251 | the world-exchange query asks for eighteen distinct item types, all at most 0x19 |
| MarketQueryService.RequestOrder | L2Market.Core/Services/MarketQueryService.cs:197-225 | the commission query asks for its six item types in ascending order and the private-store query for types 0 to 4 in order |
| ConnectionManagement.ConnectionInfo.constructor | L2Market.Domain/Models/ConnectionInfo.cs:9-63 | a connection record holds the process, window, flag, status and connection time it is given |
| ConnectionManagement.IndexOfId | L2Market.Core/Services/ConnectionManager.cs:82 | the position found holds the connection id and no earlier one does; none is found exactly when no connection has the id |
| ConnectionManagement.IndexOfPid | L2Market.Core/Services/ConnectionManager.cs:44 | the position found holds a connection of the process; none is found exactly when no connection belongs to it |
| ConnectionManagement.CountConnected | L2Market.Core/Services/ConnectionManager.cs:35 | the connected count is at most the number of connections, and zero exactly when none is connected |
| ConnectionManagement.AnyConnected | L2Market.Core/Services/ConnectionManager.cs:173 | true exactly when some connection of the process is connected |
| ConnectionManagement.UpdatedStatus | L2Market.Core/Services/ConnectionManager.cs:146-153 | the status is never empty: the one given, or "Connected" exactly when connected and "Disconnected" otherwise |
| ConnectionManagement.ConnectionManager.constructor | L2Market.Core/Services/ConnectionManager.cs:20-27 | the manager starts with no connections |
| ConnectionManagement.ConnectionManager.ConnectionCount | L2Market.Core/Services/ConnectionManager.cs:33 | with one connection per process, the count is the number of processes that have a connection |
| ConnectionManagement.PidsCount | L2Market.Core/Services/ConnectionManager.cs:33 | connections of distinct processes number as many as their processes |
| ConnectionManagement.ProcessesCounted | L2Market.Core/Services/ConnectionManager.cs:33 | with one connection per process, there are as many processes as connections |
| ConnectionManagement.ConnectionManager.ConnectedCount | L2Market.Core/Services/ConnectionManager.cs:35 | never more connected connections than connections |
| ConnectionManagement.ConnectionManager.IsProcessConnected | L2Market.Core/Services/ConnectionManager.cs:169-175 | true exactly when some connection of the process is connected |
| ConnectionManagement.ConnectionManager.GetConnection | L2Market.Core/Services/ConnectionManager.cs:104-113 | the connection returned is stored and has the id; none is returned exactly when no stored connection has it |
| ConnectionManagement.ConnectionManager.GetConnectionByProcessId | L2Market.Core/Services/ConnectionManager.cs:115-124 | the connection returned is stored and belongs to the process; none is returned exactly when no stored connection does |
| ConnectionManagement.ConnectionManager.AddConnection | L2Market.Core/Services/ConnectionManager.cs:37-74 | a process with a connection gets it back and nothing changes; otherwise a new, not yet connected "Connecting..." connection stamped with the current time is appended; either way the process has exactly one connection, the one returned |
| ConnectionManagement.ConnectionManager.RemoveConnection | L2Market.Core/Services/ConnectionManager.cs:76-102 | the first connection with the id is cut out and true returned, or false and nothing changes when there is none; one connection per process is kept |
| ConnectionManagement.ConnectionManager.UpdateConnectionStatus | L2Market.Core/Services/ConnectionManager.cs:126-167 | an unknown id changes nothing; otherwise only that connection changes: it takes the flag and the status, and its connection time restarts exactly when it goes from disconnected to connected |
| ConnectionManagement.PidOfLast | L2Market.Core/Services/ConnectionManager.cs:44-64 | a connection appended for a process that had none is the one the process lookup finds |
| ConnectionEventRouting.LocalEventBus.constructor | L2Market.Core/Services/ConnectionEventRouter.cs:17 | a new local bus has published nothing |
| ConnectionEventRouting.LocalEventBus.Publish | L2Market.Core/Services/ConnectionEventRouter.cs:50 | the event is delivered after the earlier ones |
| ConnectionEventRouting.ConnectionEventRouter.constructor | L2Market.Core/Services/ConnectionEventRouter.cs:17-29 | no process has a bus at first |
| ConnectionEventRouting.ConnectionEventRouter.Target | L2Market.Core/Services/ConnectionEventRouter.cs:46 | an event has a target exactly when it carries a process id with a registered bus, and the target is that bus |
| ConnectionEventRouting.ConnectionEventRouter.RegisterConnection | L2Market.Core/Services/ConnectionEventRouter.cs:31-35 | the process's bus is set, replacing any earlier one; events of the process go to it and routing of every other event is unchanged |
| ConnectionEventRouting.ConnectionEventRouter.UnregisterConnection | L2Market.Core/Services/ConnectionEventRouter.cs:37-41 | the process's bus is dropped, an unknown process changes nothing; events of the process have no target and routing of every other event is unchanged |
| ConnectionEventRouting.ConnectionEventRouter.Route | L2Market.Core/Services/ConnectionEventRouter.cs:43-62 | an event is routed exactly when it has a target, it is appended to that bus alone, and every other bus and the registrations are unchanged |
| MultiProcessMonitor.RemoveAll | L2Market.Core/Services/MultiProcessMonitor.cs:117 | cutting out a pattern never lengthens a name |
| MultiProcessMonitor.RemoveAllAbsent | L2Market.Core/Services/MultiProcessMonitor.cs:117 | a name without the pattern is left as it is |
| MultiProcessMonitor.SearchName | L2Market.Core/Services/MultiProcessMonitor.cs:117 | the default process name "l2.exe" is searched for as "l2" |
| MultiProcessMonitor.Eligible | L2Market.Core/Services/MultiProcessMonitor.cs:118 | exactly the processes found that are still running and not yet monitored are kept |
| MultiProcessMonitor.Take | L2Market.Core/Services/MultiProcessMonitor.cs:119 | a prefix of the given length, none for a length that is not positive, all when the length exceeds the list |
| MultiProcessMonitor.Selected | L2Market.Core/Services/MultiProcessMonitor.cs:117-120 | the candidates considered are a prefix of the eligible ones; with a non-negative maximum they are none, or no more than the room left under the maximum |
| MultiProcessMonitor.RoomUnwrapped | L2Market.Core/Services/MultiProcessMonitor.cs:119 | the unchecked int subtraction MaxProcesses - Count is the exact difference when the maximum is not negative |
| MultiProcessMonitor.WrappedRoomTakesAll | L2Market.Core/Services/MultiProcessMonitor.cs:119 | with MaxProcesses set to int.MinValue and one process monitored, the room wraps to int.MaxValue and every eligible candidate is considered |
| MultiProcessMonitor.ReportsOf | L2Market.Core/Services/MultiProcessMonitor.cs:124-155 | every report is of a considered process whose window class names the game viewport, under the monitor's process name; every such process is reported; no more reports than processes |
| MultiProcessMonitor.ReportedPidsSize | L2Market.Core/Services/MultiProcessMonitor.cs:142 | the reports name no more process ids than there are reports |
| MultiProcessMonitor.ReportsDistinct | L2Market.Core/Services/MultiProcessMonitor.cs:124-155 | processes with distinct ids give reports with distinct ids |
| MultiProcessMonitor.ReportStep | L2Market.Core/Services/MultiProcessMonitor.cs:124-155 | considering one more process adds its report when its window is ready |
| MultiProcessMonitor.PidsStep | L2Market.Core/Services/MultiProcessMonitor.cs:142 | one more report adds its process id to the monitored ones |
| MultiProcessMonitor.ScanBounds | L2Market.Core/Services/MultiProcessMonitor.cs:117-142 | a scan reports only processes not yet monitored; with a non-negative maximum it keeps the monitored set within the maximum when it was within it, and reports nothing once the maximum is reached |
| MultiProcessMonitor.MultiProcessMonitor.constructor | L2Market.Core/Services/MultiProcessMonitor.cs:22-28 | a new monitor watches "l2.exe" every three seconds, for at most ten processes, and monitors none yet |
| MultiProcessMonitor.MultiProcessMonitor.StartMonitoring | L2Market.Core/Services/MultiProcessMonitor.cs:40-53 | the monitor runs afterwards, and the monitored processes and settings stay |
| MultiProcessMonitor.MultiProcessMonitor.StopMonitoring | L2Market.Core/Services/MultiProcessMonitor.cs:55-86 | the monitor no longer runs, and the monitored processes and settings stay |
| MultiProcessMonitor.MultiProcessMonitor.CheckForNewProcesses | L2Market.Core/Services/MultiProcessMonitor.cs:113-171 | the reports are the ready processes among the eligible ones within the room MaxProcesses - Count, computed with 32-bit wrap-around; each is recorded as monitored; none was monitored before; with a non-negative maximum the monitored set stays within it, and nothing changes once it is reached |

## Left out

- The native injector (`L2Market.Injector/FlunderDLL.cpp`, `FlunderDLL.h`) is not part of this model. It is Windows handle and process plumbing that loads code into another process.
- The other injection and process plumbing is not part of this model: `DllInjector`, `DllInjectionService`, `WindowMonitorService` and the process diagnostics. The reasons are the same.
- The operating-system process enumeration of `MultiProcessMonitor` is not modelled. One scan is its list of candidates, a parameter. The timer loop, `Task.Delay` and cancellation are left out too.
- Named pipes and the event buses (`NamedPipeService`, `MultiNamedPipeService`, `InMemoryEventBus`) are I/O and concurrent dispatch. A local bus is modelled by the list of events published on it. An event a service publishes is the value it returns.
- The WPF user interface is not modelled: views, converters, the dispatcher and the log panes. The view rows of `MarketItemViewModel` are kept, as values.
- `MarketItemView`: the property setters and their change notification are not modelled. A row is an immutable value built by the three factories.
- `MarketItemView.FormattedLastSeen` is not modelled: it is a clock-formatted `HH:mm:ss` of the wall-clock time. The date text of an end time (`FormatTimestamp`) is a parameter for the same reason.
- JSON parsing of the pipe message (`TryParsePacket`) and `ConfigurationService` (System.Text.Json) are library calls. A packet reaches `PacketParser` as its id, direction and hex payload.
- Logging is not modelled. The packet handlers that only log are modelled as dropping the packet.
- `MarketDecoders.FormatPrice`: the `F1` and `N0` digits depend on double rounding and on the culture. The result is a `PriceText` holding the value, the unit and the suffix, not the digits.
- `MarketItemView.FormattedPrice` is weaker in the same way: the `F1` digits are left out, and the result is a `PriceText` holding the value, the unit and the suffix.
- `AutoBuyService.AutoBuyService.GetFormattedMoney` is weaker in the same way: it gives `FormatPrice`'s `PriceText`.
- `MarketDecoders.GetPriceColor`: the ratio of price to average is an exact fraction. A double division can round a ratio that lies within one unit in the last place of 0.5, 0.8 or 1.2 to the other side of that bound.
- The average price of the three trackers' statistics and the average enchant level of the world exchange are left out. They are floating-point means.
- `IniConfig.RoundTrip`: the six TimeSpan INI settings are written as double `TotalSeconds` and read with `double.TryParse` and `TimeSpan.FromSeconds`. The model takes that printer and parser as a parameter (`Seconds`) and asks it only to read back the six stored values. With doubles, a tick count whose seconds value has no exact binary form (one tick is 1E-07 s) can come back as a neighbouring count, and counts beyond 2^53 always can; for such settings no round trip is claimed, as in the source. Whole seconds within the 32-bit range are shown to read back (`IniConfig.WholeSeconds`). That pair reads only 32-bit whole numbers, and none of them makes `TimeSpan.FromSeconds` throw. The values that do throw (NaN, the infinities, and more than about 9.2E+11 seconds) are covered by the `Throws` outcome of the seconds pair.
- `IniConfig.NamedPipeKeys` holds for NamedPipe timeouts that read back through the seconds pair, as `IniConfig.RoundTrip` says.
- `IniConfig.NamedPipeApplied` holds for NamedPipe timeouts that read back through the seconds pair, as `IniConfig.RoundTrip` says.
- `IniConfig.NamedPipeBlockRead` holds for NamedPipe timeouts that read back through the seconds pair, as `IniConfig.RoundTrip` says.
- `IniConfig.InjectionKeys` holds for Injection timeouts that read back through the seconds pair, as `IniConfig.RoundTrip` says.
- `IniConfig.InjectionApplied` holds for Injection timeouts that read back through the seconds pair, as `IniConfig.RoundTrip` says.
- `IniConfig.InjectionBlockRead` holds for Injection timeouts that read back through the seconds pair, as `IniConfig.RoundTrip` says.
- `IniConfig.NamedPipeBlockOk` needs the stored timeouts to print without whitespace at the ends and without a LF, which the double printer does.
- `IniConfig.InjectionBlockOk` needs the stored timeouts to print without whitespace at the ends and without a LF, which the double printer does.
- `IniConfig.ContentSplit` needs the stored timeouts to print without whitespace at the ends and without a LF, which the double printer does.
- `IniConfig.ContentIniLines` needs the stored timeouts to print without whitespace at the ends and without a LF, which the double printer does.
- The current time (`DateTime.UtcNow`, `DateTimeOffset.UtcNow`) is a parameter of every operation that reads it.
- Fresh connection ids (`Guid.NewGuid`) are a parameter.
- `AutoBuyService.AutoBuyService.TryAutoBuy`: the random outcome of `ExecutePurchaseAsync` is the parameter `purchaseSucceeds`. `IsItemStillAvailableAsync` always answers true, so it is not a separate member. A match whose rule or item is null is `None`.
- `AutoBuyService`: the exception path of `TryAutoBuyAsync` is left out, because nothing in the modelled body throws. The `AvailableMoney` setter is left out too; it is a plain assignment.
- `PacketHex`: reflection is replaced by an explicit list of the command's fields and properties, in declaration order.
- `TrackingService`: the order in which the rules dictionary enumerates its keys is a parameter, checked to be a permutation of the keys.
- `TrackingService.TrackingService.GetRules` and `TrackingService.TrackingService.GetActiveRules` answer sets, not lists in dictionary order.
- `TrackingRules`: a rule's id, name, market, item id, prices and switches are fixed at construction; only the match count and the last-match time change, as the tracker updates them. The source's setters for the other properties and their change notification are not modelled.
- `TrackingRules`: the fields no core operation reads are not modelled: the item name, the sound, Discord and Telegram switches, and the creation time.
- The query answers of the three trackers are the matching entries of the table, keyed as stored. The order in which `Values` enumerates them is not modelled.
- `GetAllItemsAsync` of the three trackers is the stored table itself, the `items` field, so it has no separate member.
- `MarketQueryService.SendMarketQuery`: the delays between commands are left out. The JSON serialisation and the pipe writes of `CommandService` are left out too. A query is the sequence of commands it sends, and which commands throw is a parameter.
- `MarketQueryService`: a timer is its serial number and interval. The callbacks it fires are left out. The period is the interval in ticks divided by 10000 and truncated, as an integer; `TotalMilliseconds` is a double, which gives the same whole number of milliseconds near both limits of the accepted range. The exception of a refused interval is the `thrown` result of `StartQuerying`.
- `IniConfig.IniConfigurationService.LoadSettings`: the file's text is a parameter, so a failure to read the file, which the same catch turns into the defaults, is left out. A parse that throws is modelled.
- `PrivateStoreService.PrivateStoreService.UpdateItems`, `PrivateStoreService.PrivateStoreService.CleanupExpired`, `CommissionService.CommissionService.UpdateItems`, `CommissionService.CommissionService.CleanupExpired`, `WorldExchangeService.WorldExchangeService.UpdateItems` and `WorldExchangeService.WorldExchangeService.CleanupExpired`: the model runs them one at a time. In the source, a `System.Threading.Timer` runs the cleanup on a thread-pool thread: every minute for private stores, every 2 minutes for commission and every 3 minutes for World Exchange. The cleanup can therefore overlap an update from the event bus. Each service declares a `_lock` but never takes it, so the index invariants and the cleanup lemmas hold only when the calls do not interleave. Interleavings are not modelled.
- `IniConfig`: the UI settings carry the `AutoStartEnabled` field that the INI reader and writer use, defaulting to false. The shown settings class lacks it.
- `Text`: `ToLower` is modelled on ASCII letters only. Every key and section name compared against is ASCII.
- `Text`: `int.TryParse` is modelled without the surrounding whitespace, trailing NULs and culture signs it also accepts. `bool.TryParse` likewise leaves out trailing NULs. The values the writers print never contain them.
- `Profiles`: the profiles directory is a map from file name, its ASCII letters folded to lower case, to file text. Windows folds letters by its own upper-case table; the model folds only A-Z, so two names that differ only in the case of a non-ASCII letter are two files here and one file on Windows. I/O exceptions (the `catch` paths of save, load, exists and delete) are left out.
- The search for a name inside a name (`Contains`) is ordinal, over Dafny characters or UTF-16 units as the data has them. A case-insensitive vendor or seller search takes the upper-case mapping of one UTF-16 unit as a parameter.
- `ConnectionManagement.ConnectionInfo`: the display-only properties (`FormattedConnectedAt`, `StatusIcon`, `StatusColor`, `DisplayName`, `NamedPipeName`), change notification and the UI dispatcher callback of `ConnectionManager` are not modelled. Nor are the `ConnectionAdded`, `ConnectionRemoved` and `ConnectionStatusChanged` events.
- `ConnectionEventRouting.PipeEvent`: the process id the router reads is modelled as an optional field. The event class shown in the repository does not declare it.
- `UserInfoEntity`: the three position coordinates are single-precision floats, kept as their 32-bit patterns.
- Several event classes have two definitions in the repository. The model uses the fields the core services construct.
- `ApplicationService`, `ConnectionScope` and the dependency-injection setup are left out: they only wire the services together.

## Findings

| source | as written | input that shows it | evidently intended | confidence | as-written member | corrected member |
|---|---|---|---|---|---|---|
| L2Market.Domain/Models/MarketItemViewModel.cs:443-504 | the private-store row reads the attack from the keys "attack_type" and "attack_power", but the private-store decoder stores it under "attackType" and "attackPower" | any private-store item with the elemental bit set and an attack power above 0: its row shows no attack and no elemental text | the row shows the attack, as the commission rows do | not executed | MarketItemView.PrivateStoreAttackHidden | MarketItemView.IntendedStoreAttackShown |
| L2Market.Domain/Models/MarketItemViewModel.cs:371-411 | the colour and icon switches compare the whole market text with "Мировой обмен", but a world-exchange row's market text is "🌍 Мировой обмен" | any world-exchange item: its row is grey "#95A5A6" with the unknown-market icon | the world-exchange colour and the globe icon, as the lifetime lookup already matches the row by a substring search | not executed | MarketItemView.WorldExchangeBadges | MarketItemView.WorldExchangeIntendedBadges |
| L2Market.Core/Services/AutoBuyService.cs:42-60 | the affordability check accepts any price up to the balance, negative ones included, and the subtraction is unchecked 64-bit | a match priced `long.MinValue` against the initial balance of 10,000,000: the new balance wraps to a negative value | a purchase never leaves a negative balance | not executed | AutoBuyService.NegativePriceWrapsMoney | AutoBuyService.AutoBuyService.TryAutoBuyChecked |
