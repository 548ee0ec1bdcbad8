# SAMX packed headers and document visitors, modelled in Dafny

SAMX is a plain-text document language with a Java toolchain. Among its outputs is a C++ header generator whose result, `foo.h`, declares the IPv4, UDP and TCP headers as packed 32-bit words with shift-and-mask accessors. This project models:

- **The generated header containers** (`Ipv4.dfy`, `Udp.dfy`, `Tcp.dfy`). `ip_tos` and `ip_flags` are one-byte containers with fields numbered from the least significant bit. `ip_header` (6 words), `udp_header` (2 words) and `tcp_header` (5 words) are arrays of words whose fields are numbered from the most significant bit. Each field's getter and setter is the shift-and-mask expression of the header, with its shift and mask written out. Each setter is proved to change one word only, to read back what it stored and to leave the neighbouring fields of its word alone. The fields of each word are proved to tile it.
- **`VisitorUtils`** (`VisitorUtils.dfy`): the integer-text test used to right-align table columns, and the check that a pretty-printed text equals its input once blanks are dropped and header-separator runs collapsed. The check is driven by the `TestSequence` cursor class and is proved against a specification, `Canon`, of the characters it compares.
- **The general grid** (`Grid.dfy`): cells with row and column spans, rows in which a spanning cell occupies several columns as one shared object, and the group constructor. The constructor rejects rows of different widths and computes column widths, integer columns and whether the last column is empty.
- **Record sets** (`RecordSet.dfy`): records grouped at separator rows, and the column widths computed over the groups.
- **Conditions** (`Conditions.dfy`): evaluation of the five simple condition forms against properties and true/false flags, `isDisabled`, the flag setters, the fragment table and indentation.
- **The C++ layout** (`CppLayout.dfy`): structure members at running bit offsets (restarting only when the total is exactly 32), the structure size, the unit-width table, `getType`, and bit-field definitions that collapse a group into one field or emit one field per row.

A parse-tree node is modelled as a datatype holding what the code reads from it. A flow or condition that a visitor renders is carried as its rendered text. A Java `null` is `None`.

## Model

| member | source | states |
|---|---|---|
| Ipv4.PrecedenceCode | src/test/cpp/internet/foo.h:37-47 | every precedence code fits in the 3-bit field |
| Ipv4.PrecedenceOf | src/test/cpp/internet/foo.h:37-47 | every 3-bit value names the precedence level whose code it is |
| Ipv4.PrecedenceRoundTrip | src/test/cpp/internet/foo.h:37-47 | converting a precedence level to its code and back gives the level again |
| Ipv4.BitOf | src/test/cpp/internet/foo.h:84-92 | a flag is stored as one bit, 1 exactly when it is set |
| Ipv4.IpTos.constructor | src/test/cpp/internet/foo.h:27-34 | the container holds the byte it was built from, which the conversion to `uint8_t` returns |
| Ipv4.IpTos.GetPrecedence | src/test/cpp/internet/foo.h:65-72 | the precedence read is the level whose code is in bits 0-2 |
| Ipv4.IpTos.SetPrecedence | src/test/cpp/internet/foo.h:53-72 | the byte becomes the old byte with the field's bits cleared and the value shifted in; the precedence getter returns the value and every other getter is unchanged |
| Ipv4.IpTos.SetDelay | src/test/cpp/internet/foo.h:84-98 | the byte becomes the old byte with the field's bits cleared and the value shifted in; the delay getter returns the value and every other getter is unchanged |
| Ipv4.IpTos.SetThroughput | src/test/cpp/internet/foo.h:110-124 | the byte becomes the old byte with the field's bits cleared and the value shifted in; the throughput getter returns the value and every other getter is unchanged |
| Ipv4.IpTos.SetReliability | src/test/cpp/internet/foo.h:136-150 | the byte becomes the old byte with the field's bits cleared and the value shifted in; the reliability getter returns the value and every other getter is unchanged |
| Ipv4.IpTos.SetReserved | src/test/cpp/internet/foo.h:157-172 | the byte becomes the old byte with the field's bits cleared and the value shifted in; the reserved getter returns the value and every other getter is unchanged |
| Ipv4.TosFieldsDetermineByte | src/test/cpp/internet/foo.h:53-172 | the five Type of Service fields tile the byte: two containers with the same getter results hold the same byte |
| Ipv4.IpFlags.constructor | src/test/cpp/internet/foo.h:185-192 | the container holds the byte it was built from |
| Ipv4.IpFlags.SetReserved | src/test/cpp/internet/foo.h:200-214 | the byte becomes the old byte with the flag's bit replaced; the reserved getter returns the value and the other flags are unchanged |
| Ipv4.IpFlags.SetDF | src/test/cpp/internet/foo.h:226-240 | the byte becomes the old byte with the flag's bit replaced; the DF getter returns the value and the other flags are unchanged |
| Ipv4.IpFlags.SetMF | src/test/cpp/internet/foo.h:252-266 | the byte becomes the old byte with the flag's bit replaced; the MF getter returns the value and the other flags are unchanged |
| Ipv4.FlagsFitThreeBits | src/test/cpp/internet/foo.h:200-266 | a flags byte within 3 bits is exactly the three flag bits put together |
| Ipv4.WidenNarrow | src/test/cpp/internet/foo.h:339-357 | a byte widened to a word and narrowed back is unchanged, so nesting a one-byte container in a word loses nothing |
| Ipv4.PutVersionEffect | src/test/cpp/internet/foo.h:288-306 | storing a value that fits the field reads it back and leaves the other fields of word 0 unchanged |
| Ipv4.PutIhlEffect | src/test/cpp/internet/foo.h:314-332 | storing a value that fits the field reads it back and leaves the other fields of word 0 unchanged |
| Ipv4.PutTosEffect | src/test/cpp/internet/foo.h:339-357 | storing a value that fits the field reads it back and leaves the other fields of word 0 unchanged |
| Ipv4.PutTotLenEffect | src/test/cpp/internet/foo.h:365-383 | storing a value that fits the field reads it back and leaves the other fields of word 0 unchanged |
| Ipv4.PutIdEffect | src/test/cpp/internet/foo.h:390-408 | storing a value that fits the field reads it back and leaves the other fields of word 1 unchanged |
| Ipv4.PutFlagsEffect | src/test/cpp/internet/foo.h:414-432 | storing a value that fits the field reads it back and leaves the other fields of word 1 unchanged |
| Ipv4.PutFragOffEffect | src/test/cpp/internet/foo.h:440-458 | storing a value that fits the field reads it back and leaves the other fields of word 1 unchanged |
| Ipv4.PutTtlEffect | src/test/cpp/internet/foo.h:467-484 | storing a value that fits the field reads it back and leaves the other fields of word 2 unchanged |
| Ipv4.PutProtocolEffect | src/test/cpp/internet/foo.h:493-510 | storing a value that fits the field reads it back and leaves the other fields of word 2 unchanged |
| Ipv4.PutCheckEffect | src/test/cpp/internet/foo.h:519-536 | storing a value that fits the field reads it back and leaves the other fields of word 2 unchanged |
| Ipv4.PutOptionsEffect | src/test/cpp/internet/foo.h:574-591 | storing a value that fits the field reads it back and leaves the other fields of word 5 unchanged |
| Ipv4.PutPaddingEffect | src/test/cpp/internet/foo.h:599-616 | storing a value that fits the field reads it back and leaves the other fields of word 5 unchanged |
| Ipv4.Word0Tiled | src/test/cpp/internet/foo.h:288-383 | the fields of word 0 cover its 32 bits: equal field values mean equal words |
| Ipv4.Word1Tiled | src/test/cpp/internet/foo.h:390-458 | the fields of word 1 cover its 32 bits: equal field values mean equal words |
| Ipv4.Word2Tiled | src/test/cpp/internet/foo.h:467-536 | the fields of word 2 cover its 32 bits: equal field values mean equal words |
| Ipv4.Word5Tiled | src/test/cpp/internet/foo.h:574-616 | the fields of word 5 cover its 32 bits: equal field values mean equal words |
| Ipv4.IpHeader.constructor | src/test/cpp/internet/foo.h:621 | a new header has six zero words, so every field reads zero |
| Ipv4.IpHeader.SetVersion | src/test/cpp/internet/foo.h:288-306 | requires a value within the field's mask (the source asserts it); only word 0 changes, to the word with the field replaced, and the getter returns the value |
| Ipv4.IpHeader.SetIhl | src/test/cpp/internet/foo.h:314-332 | requires a value within the field's mask (the source asserts it); only word 0 changes, to the word with the field replaced, and the getter returns the value |
| Ipv4.IpHeader.SetTotLen | src/test/cpp/internet/foo.h:365-383 | requires a value within the field's mask (the source asserts it); only word 0 changes, to the word with the field replaced, and the getter returns the value |
| Ipv4.IpHeader.SetId | src/test/cpp/internet/foo.h:390-408 | requires a value within the field's mask (the source asserts it); only word 1 changes, to the word with the field replaced, and the getter returns the value |
| Ipv4.IpHeader.SetFragOff | src/test/cpp/internet/foo.h:440-458 | requires a value within the field's mask (the source asserts it); only word 1 changes, to the word with the field replaced, and the getter returns the value |
| Ipv4.IpHeader.SetTtl | src/test/cpp/internet/foo.h:467-484 | requires a value within the field's mask (the source asserts it); only word 2 changes, to the word with the field replaced, and the getter returns the value |
| Ipv4.IpHeader.SetProtocol | src/test/cpp/internet/foo.h:493-510 | requires a value within the field's mask (the source asserts it); only word 2 changes, to the word with the field replaced, and the getter returns the value |
| Ipv4.IpHeader.SetCheck | src/test/cpp/internet/foo.h:519-536 | requires a value within the field's mask (the source asserts it); only word 2 changes, to the word with the field replaced, and the getter returns the value |
| Ipv4.IpHeader.SetOptions | src/test/cpp/internet/foo.h:574-591 | requires a value within the field's mask (the source asserts it); only word 5 changes, to the word with the field replaced, and the getter returns the value |
| Ipv4.IpHeader.SetPadding | src/test/cpp/internet/foo.h:599-616 | requires a value within the field's mask (the source asserts it); only word 5 changes, to the word with the field replaced, and the getter returns the value |
| Ipv4.IpHeader.SetTos | src/test/cpp/internet/foo.h:339-357 | only word 0 changes, to the word with bits 8-15 replaced by the Type of Service byte, which the getter returns |
| Ipv4.IpHeader.GetTos | src/test/cpp/internet/foo.h:351-357 | returns a new Type of Service container holding bits 8-15 of word 0 |
| Ipv4.IpHeader.SetFlags | src/test/cpp/internet/foo.h:414-432 | requires a flags byte within 3 bits; only word 1 changes, to the word with bits 16-18 replaced, which the getter returns |
| Ipv4.IpHeader.GetFlags | src/test/cpp/internet/foo.h:426-432 | returns a new Flags container holding bits 16-18 of word 1 |
| Ipv4.IpHeader.SetSaddr | src/test/cpp/internet/foo.h:543-550 | word 3 becomes the address and no other word changes |
| Ipv4.IpHeader.SetDaddr | src/test/cpp/internet/foo.h:557-564 | word 4 becomes the address and no other word changes |
| Ipv4.IpTos.GetDelay | src/test/cpp/internet/foo.h:93-98 | the flag read is bit 3 of the byte, the bit the matching setter writes |
| Ipv4.IpTos.GetThroughput | src/test/cpp/internet/foo.h:119-124 | the flag read is bit 4 of the byte, the bit the matching setter writes |
| Ipv4.IpTos.GetReliability | src/test/cpp/internet/foo.h:145-150 | the flag read is bit 5 of the byte, the bit the matching setter writes |
| Ipv4.IpTos.GetReserved | src/test/cpp/internet/foo.h:167-172 | the reserved value read is bits 6-7 of the byte, so it is at most 3 and passes the setter's assertion |
| Ipv4.IpFlags.GetReserved | src/test/cpp/internet/foo.h:209-214 | the flag read is bit 0 of the byte, the bit the matching setter writes |
| Ipv4.IpFlags.GetDF | src/test/cpp/internet/foo.h:235-240 | the flag read is bit 1 of the byte, the bit the matching setter writes |
| Ipv4.IpFlags.GetMF | src/test/cpp/internet/foo.h:261-266 | the flag read is bit 2 of the byte, the bit the matching setter writes |
| Ipv4.Version | src/test/cpp/internet/foo.h:300-306 | reading the field from word 0 gives a value within its mask |
| Ipv4.PutVersion | src/test/cpp/internet/foo.h:288-298 | after the store the field reads back the value cut to the field's width |
| Ipv4.Ihl | src/test/cpp/internet/foo.h:326-332 | reading the field from word 0 gives a value within its mask |
| Ipv4.PutIhl | src/test/cpp/internet/foo.h:314-324 | after the store the field reads back the value cut to the field's width |
| Ipv4.Tos | src/test/cpp/internet/foo.h:351-357 | reading the field from word 0 gives a value within its mask |
| Ipv4.PutTos | src/test/cpp/internet/foo.h:339-349 | after the store the field reads back the value cut to the field's width |
| Ipv4.TotLen | src/test/cpp/internet/foo.h:377-383 | reading the field from word 0 gives a value within its mask |
| Ipv4.PutTotLen | src/test/cpp/internet/foo.h:365-375 | after the store the field reads back the value cut to the field's width |
| Ipv4.Id | src/test/cpp/internet/foo.h:402-408 | reading the field from word 1 gives a value within its mask |
| Ipv4.PutId | src/test/cpp/internet/foo.h:390-400 | after the store the field reads back the value cut to the field's width |
| Ipv4.Flags | src/test/cpp/internet/foo.h:426-432 | reading the field from word 1 gives a value within its mask |
| Ipv4.PutFlags | src/test/cpp/internet/foo.h:414-424 | after the store the field reads back the value cut to the field's width |
| Ipv4.FragOff | src/test/cpp/internet/foo.h:452-458 | reading the field from word 1 gives a value within its mask |
| Ipv4.PutFragOff | src/test/cpp/internet/foo.h:440-450 | after the store the field reads back the value cut to the field's width |
| Ipv4.Ttl | src/test/cpp/internet/foo.h:479-485 | reading the field from word 2 gives a value within its mask |
| Ipv4.PutTtl | src/test/cpp/internet/foo.h:467-477 | after the store the field reads back the value cut to the field's width |
| Ipv4.Protocol | src/test/cpp/internet/foo.h:505-511 | reading the field from word 2 gives a value within its mask |
| Ipv4.PutProtocol | src/test/cpp/internet/foo.h:493-503 | after the store the field reads back the value cut to the field's width |
| Ipv4.Check | src/test/cpp/internet/foo.h:531-537 | reading the field from word 2 gives a value within its mask |
| Ipv4.PutCheck | src/test/cpp/internet/foo.h:519-529 | after the store the field reads back the value cut to the field's width |
| Ipv4.Options | src/test/cpp/internet/foo.h:586-592 | reading the field from word 5 gives a value within its mask |
| Ipv4.PutOptions | src/test/cpp/internet/foo.h:574-584 | after the store the field reads back the value cut to the field's width |
| Ipv4.Padding | src/test/cpp/internet/foo.h:611-617 | reading the field from word 5 gives a value within its mask |
| Ipv4.PutPadding | src/test/cpp/internet/foo.h:599-609 | after the store the field reads back the value cut to the field's width |
| Ipv4.IpHeader.GetVersion | src/test/cpp/internet/foo.h:300-306 | the value read fits the field's mask, so it passes the setter's assertion |
| Ipv4.IpHeader.GetIhl | src/test/cpp/internet/foo.h:326-332 | the value read fits the field's mask, so it passes the setter's assertion |
| Ipv4.IpHeader.GetTotLen | src/test/cpp/internet/foo.h:377-383 | the value read fits the field's mask, so it passes the setter's assertion |
| Ipv4.IpHeader.GetId | src/test/cpp/internet/foo.h:402-408 | the value read fits the field's mask, so it passes the setter's assertion |
| Ipv4.IpHeader.GetFragOff | src/test/cpp/internet/foo.h:452-458 | the value read fits the field's mask, so it passes the setter's assertion |
| Ipv4.IpHeader.GetTtl | src/test/cpp/internet/foo.h:479-485 | the value read fits the field's mask, so it passes the setter's assertion |
| Ipv4.IpHeader.GetProtocol | src/test/cpp/internet/foo.h:505-511 | the value read fits the field's mask, so it passes the setter's assertion |
| Ipv4.IpHeader.GetCheck | src/test/cpp/internet/foo.h:531-537 | the value read fits the field's mask, so it passes the setter's assertion |
| Ipv4.IpHeader.GetOptions | src/test/cpp/internet/foo.h:586-592 | the value read fits the field's mask, so it passes the setter's assertion |
| Ipv4.IpHeader.GetPadding | src/test/cpp/internet/foo.h:611-617 | the value read fits the field's mask, so it passes the setter's assertion |
| Ipv4.IpHeader.TosByte | src/test/cpp/internet/foo.h:351-357 | narrowing bits 8-15 of word 0 to a byte loses nothing |
| Ipv4.IpHeader.FlagsByte | src/test/cpp/internet/foo.h:426-432 | narrowing bits 16-18 of word 1 to a byte loses nothing, and the byte is at most 7 |
| Ipv4.IpHeader.GetSaddr | src/test/cpp/internet/foo.h:548-551 | the source address is the whole of word 3, without mask or shift |
| Ipv4.IpHeader.GetDaddr | src/test/cpp/internet/foo.h:562-565 | the destination address is the whole of word 4, without mask or shift |
| Udp.PutSourceEffect | src/test/cpp/internet/foo.h:639-656 | storing a 16-bit value reads it back and leaves the other field of word 0 unchanged |
| Udp.PutDestEffect | src/test/cpp/internet/foo.h:664-681 | storing a 16-bit value reads it back and leaves the other field of word 0 unchanged |
| Udp.PutLenEffect | src/test/cpp/internet/foo.h:690-707 | storing a 16-bit value reads it back and leaves the other field of word 1 unchanged |
| Udp.PutCheckEffect | src/test/cpp/internet/foo.h:718-735 | storing a 16-bit value reads it back and leaves the other field of word 1 unchanged |
| Udp.Word0Tiled | src/test/cpp/internet/foo.h:639-681 | the two fields of word 0 cover its 32 bits |
| Udp.Word1Tiled | src/test/cpp/internet/foo.h:690-735 | the two fields of word 1 cover its 32 bits |
| Udp.UdpHeader.constructor | src/test/cpp/internet/foo.h:740 | a new header has two zero words |
| Udp.UdpHeader.SetSource | src/test/cpp/internet/foo.h:639-656 | requires a 16-bit value; only word 0 changes, to the word with the field replaced, and the getter returns the value |
| Udp.UdpHeader.SetDest | src/test/cpp/internet/foo.h:664-681 | requires a 16-bit value; only word 0 changes, to the word with the field replaced, and the getter returns the value |
| Udp.UdpHeader.SetLen | src/test/cpp/internet/foo.h:690-707 | requires a 16-bit value; only word 1 changes, to the word with the field replaced, and the getter returns the value |
| Udp.UdpHeader.SetCheck | src/test/cpp/internet/foo.h:718-735 | requires a 16-bit value; only word 1 changes, to the word with the field replaced, and the getter returns the value |
| Udp.Source | src/test/cpp/internet/foo.h:651-657 | reading the field from word 0 gives a 16-bit value |
| Udp.PutSource | src/test/cpp/internet/foo.h:639-649 | after the store the field reads back the value cut to 16 bits |
| Udp.UdpHeader.GetSource | src/test/cpp/internet/foo.h:651-657 | the value read fits in 16 bits, so it passes the setter's assertion |
| Udp.Dest | src/test/cpp/internet/foo.h:676-682 | reading the field from word 0 gives a 16-bit value |
| Udp.PutDest | src/test/cpp/internet/foo.h:664-674 | after the store the field reads back the value cut to 16 bits |
| Udp.UdpHeader.GetDest | src/test/cpp/internet/foo.h:676-682 | the value read fits in 16 bits, so it passes the setter's assertion |
| Udp.Len | src/test/cpp/internet/foo.h:702-708 | reading the field from word 1 gives a 16-bit value |
| Udp.PutLen | src/test/cpp/internet/foo.h:690-700 | after the store the field reads back the value cut to 16 bits |
| Udp.UdpHeader.GetLen | src/test/cpp/internet/foo.h:702-708 | the value read fits in 16 bits, so it passes the setter's assertion |
| Udp.Check | src/test/cpp/internet/foo.h:730-736 | reading the field from word 1 gives a 16-bit value |
| Udp.PutCheck | src/test/cpp/internet/foo.h:718-728 | after the store the field reads back the value cut to 16 bits |
| Udp.UdpHeader.GetCheck | src/test/cpp/internet/foo.h:730-736 | the value read fits in 16 bits, so it passes the setter's assertion |
| Tcp.PutSourceEffect | src/test/cpp/internet/foo.h:754-771 | storing a value that fits the field reads it back and leaves the other fields of word 0 unchanged |
| Tcp.PutDestEffect | src/test/cpp/internet/foo.h:778-795 | storing a value that fits the field reads it back and leaves the other fields of word 0 unchanged |
| Tcp.PutDoffEffect | src/test/cpp/internet/foo.h:838-855 | storing a value that fits the field reads it back and leaves the other fields of word 3 unchanged |
| Tcp.PutReservedEffect | src/test/cpp/internet/foo.h:862-879 | storing a value that fits the field reads it back and leaves the other fields of word 3 unchanged |
| Tcp.PutCwrEffect | src/test/cpp/internet/foo.h:886-903 | storing a value that fits the field reads it back and leaves the other fields of word 3 unchanged |
| Tcp.PutEceEffect | src/test/cpp/internet/foo.h:910-927 | storing a value that fits the field reads it back and leaves the other fields of word 3 unchanged |
| Tcp.PutUrgEffect | src/test/cpp/internet/foo.h:934-951 | storing a value that fits the field reads it back and leaves the other fields of word 3 unchanged |
| Tcp.PutAckEffect | src/test/cpp/internet/foo.h:958-975 | storing a value that fits the field reads it back and leaves the other fields of word 3 unchanged |
| Tcp.PutPshEffect | src/test/cpp/internet/foo.h:982-999 | storing a value that fits the field reads it back and leaves the other fields of word 3 unchanged |
| Tcp.PutRstEffect | src/test/cpp/internet/foo.h:1006-1023 | storing a value that fits the field reads it back and leaves the other fields of word 3 unchanged |
| Tcp.PutSynEffect | src/test/cpp/internet/foo.h:1030-1047 | storing a value that fits the field reads it back and leaves the other fields of word 3 unchanged |
| Tcp.PutFinEffect | src/test/cpp/internet/foo.h:1054-1071 | storing a value that fits the field reads it back and leaves the other fields of word 3 unchanged |
| Tcp.PutWindowEffect | src/test/cpp/internet/foo.h:1080-1097 | storing a value that fits the field reads it back and leaves the other fields of word 3 unchanged |
| Tcp.PutCheckEffect | src/test/cpp/internet/foo.h:1109-1126 | storing a value that fits the field reads it back and leaves the other fields of word 4 unchanged |
| Tcp.PutUrgentEffect | src/test/cpp/internet/foo.h:1136-1153 | storing a value that fits the field reads it back and leaves the other fields of word 4 unchanged |
| Tcp.Word0Tiled | src/test/cpp/internet/foo.h:754-795 | the fields of word 0 cover its 32 bits: equal field values mean equal words |
| Tcp.Word3Tiled | src/test/cpp/internet/foo.h:838-1097 | the fields of word 3 cover its 32 bits: equal field values mean equal words |
| Tcp.Word4Tiled | src/test/cpp/internet/foo.h:1109-1153 | the fields of word 4 cover its 32 bits: equal field values mean equal words |
| Tcp.TcpHeader.constructor | src/test/cpp/internet/foo.h:1158 | a new header has five zero words |
| Tcp.TcpHeader.SetSource | src/test/cpp/internet/foo.h:754-771 | requires a value within the field's mask; only word 0 changes, to the word with the field replaced, and the getter returns the value |
| Tcp.TcpHeader.SetDest | src/test/cpp/internet/foo.h:778-795 | requires a value within the field's mask; only word 0 changes, to the word with the field replaced, and the getter returns the value |
| Tcp.TcpHeader.SetDoff | src/test/cpp/internet/foo.h:838-855 | requires a value within the field's mask; only word 3 changes, to the word with the field replaced, and the getter returns the value |
| Tcp.TcpHeader.SetReserved | src/test/cpp/internet/foo.h:862-879 | requires a value within the field's mask; only word 3 changes, to the word with the field replaced, and the getter returns the value |
| Tcp.TcpHeader.SetCwr | src/test/cpp/internet/foo.h:886-903 | requires a value within the field's mask; only word 3 changes, to the word with the field replaced, and the getter returns the value |
| Tcp.TcpHeader.SetEce | src/test/cpp/internet/foo.h:910-927 | requires a value within the field's mask; only word 3 changes, to the word with the field replaced, and the getter returns the value |
| Tcp.TcpHeader.SetUrg | src/test/cpp/internet/foo.h:934-951 | requires a value within the field's mask; only word 3 changes, to the word with the field replaced, and the getter returns the value |
| Tcp.TcpHeader.SetAck | src/test/cpp/internet/foo.h:958-975 | requires a value within the field's mask; only word 3 changes, to the word with the field replaced, and the getter returns the value |
| Tcp.TcpHeader.SetPsh | src/test/cpp/internet/foo.h:982-999 | requires a value within the field's mask; only word 3 changes, to the word with the field replaced, and the getter returns the value |
| Tcp.TcpHeader.SetRst | src/test/cpp/internet/foo.h:1006-1023 | requires a value within the field's mask; only word 3 changes, to the word with the field replaced, and the getter returns the value |
| Tcp.TcpHeader.SetSyn | src/test/cpp/internet/foo.h:1030-1047 | requires a value within the field's mask; only word 3 changes, to the word with the field replaced, and the getter returns the value |
| Tcp.TcpHeader.SetFin | src/test/cpp/internet/foo.h:1054-1071 | requires a value within the field's mask; only word 3 changes, to the word with the field replaced, and the getter returns the value |
| Tcp.TcpHeader.SetWindow | src/test/cpp/internet/foo.h:1080-1097 | requires a value within the field's mask; only word 3 changes, to the word with the field replaced, and the getter returns the value |
| Tcp.TcpHeader.SetCheck | src/test/cpp/internet/foo.h:1109-1126 | requires a value within the field's mask; only word 4 changes, to the word with the field replaced, and the getter returns the value |
| Tcp.TcpHeader.SetUrgent | src/test/cpp/internet/foo.h:1136-1153 | requires a value within the field's mask; only word 4 changes, to the word with the field replaced, and the getter returns the value |
| Tcp.TcpHeader.SetSeq | src/test/cpp/internet/foo.h:805-812 | word 1 becomes the sequence number and no other word changes |
| Tcp.TcpHeader.SetAckSeq | src/test/cpp/internet/foo.h:822-829 | word 2 becomes the acknowledgment number and no other word changes |
| Tcp.Source | src/test/cpp/internet/foo.h:766-772 | reading the field from word 0 gives a value within its mask |
| Tcp.PutSource | src/test/cpp/internet/foo.h:754-764 | after the store the field reads back the value cut to the field's width |
| Tcp.TcpHeader.GetSource | src/test/cpp/internet/foo.h:766-772 | the value read fits the field's mask, so it passes the setter's assertion |
| Tcp.Dest | src/test/cpp/internet/foo.h:790-796 | reading the field from word 0 gives a value within its mask |
| Tcp.PutDest | src/test/cpp/internet/foo.h:778-788 | after the store the field reads back the value cut to the field's width |
| Tcp.TcpHeader.GetDest | src/test/cpp/internet/foo.h:790-796 | the value read fits the field's mask, so it passes the setter's assertion |
| Tcp.Doff | src/test/cpp/internet/foo.h:850-856 | reading the field from word 3 gives a value within its mask |
| Tcp.PutDoff | src/test/cpp/internet/foo.h:838-848 | after the store the field reads back the value cut to the field's width |
| Tcp.TcpHeader.GetDoff | src/test/cpp/internet/foo.h:850-856 | the value read fits the field's mask, so it passes the setter's assertion |
| Tcp.Reserved | src/test/cpp/internet/foo.h:874-880 | reading the field from word 3 gives a value within its mask |
| Tcp.PutReserved | src/test/cpp/internet/foo.h:862-872 | after the store the field reads back the value cut to the field's width |
| Tcp.TcpHeader.GetReserved | src/test/cpp/internet/foo.h:874-880 | the value read fits the field's mask, so it passes the setter's assertion |
| Tcp.Cwr | src/test/cpp/internet/foo.h:898-904 | reading the field from word 3 gives a value within its mask |
| Tcp.PutCwr | src/test/cpp/internet/foo.h:886-896 | after the store the field reads back the value cut to the field's width |
| Tcp.TcpHeader.GetCwr | src/test/cpp/internet/foo.h:898-904 | the value read fits the field's mask, so it passes the setter's assertion |
| Tcp.Ece | src/test/cpp/internet/foo.h:922-928 | reading the field from word 3 gives a value within its mask |
| Tcp.PutEce | src/test/cpp/internet/foo.h:910-920 | after the store the field reads back the value cut to the field's width |
| Tcp.TcpHeader.GetEce | src/test/cpp/internet/foo.h:922-928 | the value read fits the field's mask, so it passes the setter's assertion |
| Tcp.Urg | src/test/cpp/internet/foo.h:946-952 | reading the field from word 3 gives a value within its mask |
| Tcp.PutUrg | src/test/cpp/internet/foo.h:934-944 | after the store the field reads back the value cut to the field's width |
| Tcp.TcpHeader.GetUrg | src/test/cpp/internet/foo.h:946-952 | the value read fits the field's mask, so it passes the setter's assertion |
| Tcp.Ack | src/test/cpp/internet/foo.h:970-976 | reading the field from word 3 gives a value within its mask |
| Tcp.PutAck | src/test/cpp/internet/foo.h:958-968 | after the store the field reads back the value cut to the field's width |
| Tcp.TcpHeader.GetAck | src/test/cpp/internet/foo.h:970-976 | the value read fits the field's mask, so it passes the setter's assertion |
| Tcp.Psh | src/test/cpp/internet/foo.h:994-1000 | reading the field from word 3 gives a value within its mask |
| Tcp.PutPsh | src/test/cpp/internet/foo.h:982-992 | after the store the field reads back the value cut to the field's width |
| Tcp.TcpHeader.GetPsh | src/test/cpp/internet/foo.h:994-1000 | the value read fits the field's mask, so it passes the setter's assertion |
| Tcp.Rst | src/test/cpp/internet/foo.h:1018-1024 | reading the field from word 3 gives a value within its mask |
| Tcp.PutRst | src/test/cpp/internet/foo.h:1006-1016 | after the store the field reads back the value cut to the field's width |
| Tcp.TcpHeader.GetRst | src/test/cpp/internet/foo.h:1018-1024 | the value read fits the field's mask, so it passes the setter's assertion |
| Tcp.Syn | src/test/cpp/internet/foo.h:1042-1048 | reading the field from word 3 gives a value within its mask |
| Tcp.PutSyn | src/test/cpp/internet/foo.h:1030-1040 | after the store the field reads back the value cut to the field's width |
| Tcp.TcpHeader.GetSyn | src/test/cpp/internet/foo.h:1042-1048 | the value read fits the field's mask, so it passes the setter's assertion |
| Tcp.Fin | src/test/cpp/internet/foo.h:1066-1072 | reading the field from word 3 gives a value within its mask |
| Tcp.PutFin | src/test/cpp/internet/foo.h:1054-1064 | after the store the field reads back the value cut to the field's width |
| Tcp.TcpHeader.GetFin | src/test/cpp/internet/foo.h:1066-1072 | the value read fits the field's mask, so it passes the setter's assertion |
| Tcp.Window | src/test/cpp/internet/foo.h:1092-1098 | reading the field from word 3 gives a value within its mask |
| Tcp.PutWindow | src/test/cpp/internet/foo.h:1080-1090 | after the store the field reads back the value cut to the field's width |
| Tcp.TcpHeader.GetWindow | src/test/cpp/internet/foo.h:1092-1098 | the value read fits the field's mask, so it passes the setter's assertion |
| Tcp.Check | src/test/cpp/internet/foo.h:1121-1127 | reading the field from word 4 gives a value within its mask |
| Tcp.PutCheck | src/test/cpp/internet/foo.h:1109-1119 | after the store the field reads back the value cut to the field's width |
| Tcp.TcpHeader.GetCheck | src/test/cpp/internet/foo.h:1121-1127 | the value read fits the field's mask, so it passes the setter's assertion |
| Tcp.Urgent | src/test/cpp/internet/foo.h:1148-1154 | reading the field from word 4 gives a value within its mask |
| Tcp.PutUrgent | src/test/cpp/internet/foo.h:1136-1146 | after the store the field reads back the value cut to the field's width |
| Tcp.TcpHeader.GetUrgent | src/test/cpp/internet/foo.h:1148-1154 | the value read fits the field's mask, so it passes the setter's assertion |
| Tcp.TcpHeader.GetSeq | src/test/cpp/internet/foo.h:810-813 | the sequence number is the whole of word 1, without mask or shift |
| Tcp.TcpHeader.GetAckSeq | src/test/cpp/internet/foo.h:827-830 | the acknowledgment number is the whole of word 2, without mask or shift |
| VisitorUtils.Digit | src/main/java/net/signbit/samx/VisitorUtils.java:258 | a digit value is below the radix and exists only for radixes 2 to 36; otherwise -1 |
| VisitorUtils.IsInteger | src/main/java/net/signbit/samx/VisitorUtils.java:239-264 | true exactly for a non-empty text other than a lone '-' whose characters are digits of the radix, a leading '-' aside |
| VisitorUtils.IsDecimalInteger | src/main/java/net/signbit/samx/VisitorUtils.java:234-237 | the radix-10 case of `IsInteger` |
| VisitorUtils.MinusOnlyLeads | src/main/java/net/signbit/samx/VisitorUtils.java:245-257 | in a text accepted as an integer a '-' can only be the first character |
| VisitorUtils.LineStart | src/main/java/net/signbit/samx/VisitorUtils.java:38-41 | the start of the line holding a position: just after a newline, or 0, with no newline in between |
| VisitorUtils.NextLine | src/main/java/net/signbit/samx/VisitorUtils.java:59-71 | one more character raises the line number exactly when it is a newline, and the column then restarts at 1 |
| VisitorUtils.SkipBlanks | src/main/java/net/signbit/samx/VisitorUtils.java:73-92 | the end of the run of spaces, tabs and newlines: all skipped characters are blanks and the next one is not |
| VisitorUtils.SkipHeaderSeparator | src/main/java/net/signbit/samx/VisitorUtils.java:94-108 | the end of the run of '+' and '=' characters, all skipped and the next one not |
| VisitorUtils.TestSequence.constructor | src/main/java/net/signbit/samx/VisitorUtils.java:43-47 | a cursor at index 0, line 1, column 1 |
| VisitorUtils.TestSequence.IsExhausted | src/main/java/net/signbit/samx/VisitorUtils.java:49-52 | while the cursor is not exhausted its index lies inside the text |
| VisitorUtils.TestSequence.Get | src/main/java/net/signbit/samx/VisitorUtils.java:54-57 | the character under the cursor is a character of the text |
| VisitorUtils.TestSequence.Advance | src/main/java/net/signbit/samx/VisitorUtils.java:59-71 | the index moves by one; a newline starts the next line at column 1, any other character moves one column right |
| VisitorUtils.TestSequence.AdvancePastWhitespace | src/main/java/net/signbit/samx/VisitorUtils.java:73-92 | the index moves to the end of the blank run, and the result says whether it moved |
| VisitorUtils.TestSequence.AdvancePastHeaderSeparator | src/main/java/net/signbit/samx/VisitorUtils.java:94-108 | the index moves to the end of the '+'/'=' run |
| VisitorUtils.Next | src/main/java/net/signbit/samx/VisitorUtils.java:147-162 | after an equal character the comparison resumes strictly further on: past the whole separator run for '+' |
| VisitorUtils.CanonSkipsBlanks | src/main/java/net/signbit/samx/VisitorUtils.java:133-142 | skipping blanks does not change what the comparison sees |
| VisitorUtils.AgreeOneMore | src/main/java/net/signbit/samx/VisitorUtils.java:147-150 | agreement on k characters plus an equal next character gives agreement on k + 1 |
| VisitorUtils.Ending | src/main/java/net/signbit/samx/VisitorUtils.java:169-180 | once either text is used up the texts match exactly when both are, and otherwise the shorter is a proper prefix of the longer |
| VisitorUtils.StepEqual | src/main/java/net/signbit/samx/VisitorUtils.java:144-162 | equal characters extend the agreement by one and both sides resume at `Next` |
| VisitorUtils.StepDiffer | src/main/java/net/signbit/samx/VisitorUtils.java:144-166 | the characters at both cursors are the next characters the comparison sees |
| VisitorUtils.CompareStep | src/main/java/net/signbit/samx/VisitorUtils.java:133-166 | one loop pass keeps the agreement invariant and either makes progress or stops on two different characters |
| VisitorUtils.CompareFilesExceptWhitespace | src/main/java/net/signbit/samx/VisitorUtils.java:126-181 | `Match` exactly when both texts read the same without blanks and with separator runs collapsed; a mismatch names two different characters with their true line and column after the common part; a size mismatch means one view is a proper prefix of the other, with the common length |
| VisitorUtils.StripBlanks | src/main/java/net/signbit/samx/VisitorUtils.java:73-92 | deleting blanks never lengthens a text |
| VisitorUtils.CanonWithoutPlus | src/main/java/net/signbit/samx/VisitorUtils.java:126-181 | for texts without '+' the comparison sees exactly the text with its blanks deleted |
| Grid.Count | src/main/java/net/signbit/samx/GridVisitor.java:61-75 | the count is at most the length and is zero exactly when the character does not occur |
| Grid.Content | src/main/java/net/signbit/samx/GridVisitor.java:88-96 | a cell without a flow renders as the empty text |
| Grid.HasContent | src/main/java/net/signbit/samx/GridVisitor.java:98-101 | a cell has content only with a flow, whose source text is not empty |
| Grid.Empty | src/main/java/net/signbit/samx/GridVisitor.java:118-121 | an empty cell has no content and renders as nothing |
| Grid.ContentVersusEmpty | src/main/java/net/signbit/samx/GridVisitor.java:98-121 | a cell with content is never empty, and an empty cell renders as nothing |
| Grid.GridCell.constructor | src/main/java/net/signbit/samx/GridVisitor.java:38-57 | a new cell spans one row and one column |
| Grid.GridCell.SetSpan | src/main/java/net/signbit/samx/GridVisitor.java:59-86 | each '|' adds a column and each '-' a row, then each span above one is lowered by one; for a fresh cell the spans are the counts, at least 1 |
| Grid.Slots | src/main/java/net/signbit/samx/GridVisitor.java:139-155 | an element fills at least one slot, each holding that element's cell |
| Grid.ExpandWidth | src/main/java/net/signbit/samx/GridVisitor.java:130-157 | a row has as many cells as the sum of its elements' column spans, never fewer than its elements |
| Grid.MirrorsAppend | src/main/java/net/signbit/samx/GridVisitor.java:139-155 | cells that hold two value sequences side by side hold their concatenation |
| Grid.ExpandStep | src/main/java/net/signbit/samx/GridVisitor.java:139-155 | one more element adds its slots at the end of the row |
| Grid.ElementCells | src/main/java/net/signbit/samx/GridVisitor.java:141-155 | an element yields fresh cells holding its slots, and every copy of a spanning cell is the same object |
| Grid.GeneralGridRow.constructor | src/main/java/net/signbit/samx/GridVisitor.java:135-157 | the row keeps its condition and its cells hold the expanded elements, in order |
| Grid.GeneralGridRow.ColumnCount | src/main/java/net/signbit/samx/GridVisitor.java:130-133 | the number of cell slots of the row, a spanning cell counted once per column it covers |
| Grid.SingleWidth | src/main/java/net/signbit/samx/GridVisitor.java:174-200 | the set of row widths has one element exactly when there is a row and all rows are as wide as the first |
| Grid.CeilDivLeast | src/main/java/net/signbit/samx/GridVisitor.java:230 | the ceiling of a / b is the least number of b-wide columns holding a characters |
| Grid.MaxCellWidthIsMax | src/main/java/net/signbit/samx/GridVisitor.java:213-236 | a column's width bounds every cell's demand on it and is 0 or one cell's demand |
| Grid.ColumnIsIntegerMeaning | src/main/java/net/signbit/samx/GridVisitor.java:237-240 | a column is integer exactly when every cell in it renders as an integer |
| Grid.LastColumnEmpty | src/main/java/net/signbit/samx/GridVisitor.java:244-251 | the last column is empty exactly when every row's last cell is empty |
| Grid.MaxConditionWidthIsMax | src/main/java/net/signbit/samx/GridVisitor.java:182-190 | the condition column is as wide as the longest rendered condition, and 0 without any |
| Grid.MaxCellWidthStep | src/main/java/net/signbit/samx/GridVisitor.java:232-235 | folding in a row raises each column width to the row's demand when that is larger |
| Grid.ColumnIsIntegerStep | src/main/java/net/signbit/samx/GridVisitor.java:237-240 | a column stays integer after one more row only if the new cell is an integer |
| Grid.LastColumnEmptyStep | src/main/java/net/signbit/samx/GridVisitor.java:244-251 | the last column stays empty after one more row only if that row's last cell is empty |
| Grid.AbsorbRow | src/main/java/net/signbit/samx/GridVisitor.java:217-241 | for each cell of the row, the column width becomes the larger of the old one and the cell's demand, and the integer flag is cleared unless the content is an integer |
| Grid.AddRow | src/main/java/net/signbit/samx/GridVisitor.java:213-242 | after a row the widths and flags are those of all rows so far |
| Grid.ComputeColumns | src/main/java/net/signbit/samx/GridVisitor.java:202-257 | the widths, integer flags and last-column flag are those of the whole table (widths stay 0 without a visitor) |
| Grid.FoldRow | src/main/java/net/signbit/samx/GridVisitor.java:213-252 | one pass of the row loop keeps the widths, flags and last-column flag equal to those of the rows seen |
| Grid.GeneralGridGroup.constructor | src/main/java/net/signbit/samx/GridVisitor.java:202-259 | the group holds the computed widths, flags and condition width, and one column fewer when the last column is empty |
| Grid.DataRowsStep | src/main/java/net/signbit/samx/GridVisitor.java:175-194 | a data row extends the rows, their widths and the condition width; a row without data changes nothing |
| Grid.TableStep | src/main/java/net/signbit/samx/GridVisitor.java:175-194 | one more data row adds its expanded cells, its width to the width set and its condition to the maximum |
| Grid.AppendRow | src/main/java/net/signbit/samx/GridVisitor.java:180-192 | the new row is added at the end and earlier rows keep their cells |
| Grid.CollectRows | src/main/java/net/signbit/samx/GridVisitor.java:174-195 | the rows with data, their set of widths and, with a visitor, the longest condition |
| Grid.BuildGroup | src/main/java/net/signbit/samx/GridVisitor.java:172-260 | fails with the set of sizes exactly when the rows do not all have one width, fails on index -1 exactly when that width is 0, and otherwise builds a group whose rows hold the data rows' cells in order, with the computed columns |
| RecordSets.NewRecordHeader | src/main/java/net/signbit/samx/visitors/RecordSetVisitor.java:40-47 | the header holds the column names, in order |
| RecordSets.NewRecordData | src/main/java/net/signbit/samx/visitors/RecordSetVisitor.java:55-64 | the record keeps its condition and one entry per cell, absent flows included, in order |
| RecordSets.VisitRecordRow | src/main/java/net/signbit/samx/visitors/RecordSetVisitor.java:133-147 | a row without data gives no record; otherwise its record |
| RecordSets.SplitStep | src/main/java/net/signbit/samx/visitors/RecordSetVisitor.java:158-174 | a record joins the open group; a separator closes a non-empty open group and is ignored otherwise |
| RecordSets.FlattenAppend | src/main/java/net/signbit/samx/visitors/RecordSetVisitor.java:89-91 | concatenating the groups of two lists is concatenating their concatenations |
| RecordSets.SplitInvariant | src/main/java/net/signbit/samx/visitors/RecordSetVisitor.java:158-174 | no finished group is empty, and the finished groups plus the open one are the records read so far |
| RecordSets.GroupsNonEmpty | src/main/java/net/signbit/samx/visitors/RecordSetVisitor.java:149-182 | a record set never holds an empty group, whatever separators it has |
| RecordSets.GroupsFlatten | src/main/java/net/signbit/samx/visitors/RecordSetVisitor.java:149-182 | the groups, concatenated, are the records in input order |
| RecordSets.SplitAfterClosed | src/main/java/net/signbit/samx/visitors/RecordSetVisitor.java:161-168 | rows read after the open group is closed are grouped as if they stood alone |
| RecordSets.SeparatorSplits | src/main/java/net/signbit/samx/visitors/RecordSetVisitor.java:161-168 | a separator divides the rows into two independently grouped parts |
| RecordSets.RecordDataGroup.constructor | src/main/java/net/signbit/samx/visitors/RecordSetVisitor.java:67-71 | a new group has no rows |
| RecordSets.RowsOf | src/main/java/net/signbit/samx/visitors/RecordSetVisitor.java:76 | one row list per group |
| RecordSets.RowsOfStep | src/main/java/net/signbit/samx/visitors/RecordSetVisitor.java:166 | adding a group adds its rows at the end |
| RecordSets.RecordSet.constructor | src/main/java/net/signbit/samx/visitors/RecordSetVisitor.java:73-76 | the record set has the header and no groups |
| RecordSets.RecordSet.CloseGroup | src/main/java/net/signbit/samx/visitors/RecordSetVisitor.java:164-168 | the group is added at the end and the earlier groups keep their rows |
| RecordSets.RecordSet.AddRecord | src/main/java/net/signbit/samx/visitors/RecordSetVisitor.java:172 | the record joins the open group and the record set's groups are unchanged |
| RecordSets.RecordSet.ComputeColumnWidths | src/main/java/net/signbit/samx/visitors/RecordSetVisitor.java:78-118 | fails exactly when some record has fewer cells than the header has columns; otherwise each column's width is the larger of its name and its widest flow, and the extra entry is the longest condition |
| RecordSets.HeaderWidths | src/main/java/net/signbit/samx/visitors/RecordSetVisitor.java:80-87 | one entry per column holding its name's length, then a 0 for the condition |
| RecordSets.MeasureGroups | src/main/java/net/signbit/samx/visitors/RecordSetVisitor.java:89-115 | the walk over the groups fails exactly when some record is short, and otherwise measures all records |
| RecordSets.FlattenStep | src/main/java/net/signbit/samx/visitors/RecordSetVisitor.java:89 | the records of one more group follow those before it |
| RecordSets.ShortStaysShort | src/main/java/net/signbit/samx/visitors/RecordSetVisitor.java:89-115 | the records of the first groups are a prefix of all records |
| RecordSets.MaxFlowWidthIsMax | src/main/java/net/signbit/samx/visitors/RecordSetVisitor.java:93-104 | a column's flow width bounds every present flow of that column and is 0 or one flow's length |
| RecordSets.MaxConditionWidthIsMax | src/main/java/net/signbit/samx/visitors/RecordSetVisitor.java:106-113 | the condition width bounds every present condition and is 0 or one condition's length |
| RecordSets.MeasureGroup | src/main/java/net/signbit/samx/visitors/RecordSetVisitor.java:91-114 | the walk over one group's records fails exactly when one is short and otherwise adds them all to the widths |
| RecordSets.SnocSlice | src/main/java/net/signbit/samx/visitors/RecordSetVisitor.java:91 | the records up to and including r are those before r followed by record r |
| RecordSets.FineStep | src/main/java/net/signbit/samx/visitors/RecordSetVisitor.java:93-95 | records all have enough cells after one more exactly when the earlier ones do and the new one does |
| RecordSets.FinePrefix | src/main/java/net/signbit/samx/visitors/RecordSetVisitor.java:93-95 | if all records have enough cells, so do those of any prefix |
| RecordSets.MeasureRecord | src/main/java/net/signbit/samx/visitors/RecordSetVisitor.java:93-113 | fails exactly when the record has fewer cells than columns, and otherwise folds its flows and condition into the widths |
| RecordSets.VisitRecordSet | src/main/java/net/signbit/samx/visitors/RecordSetVisitor.java:149-182 | the record set has the header and the groups of the rows, as the separators split them |
| Conditions.IsDisabled | src/main/java/net/signbit/samx/visitors/RendererVisitor.java:202-228 | an absent condition never disables; a present one disables exactly when it does not hold |
| Conditions.Evaluate | src/main/java/net/signbit/samx/visitors/RendererVisitor.java:92-200 | a comparison or set test holds only when its property is set, and a set test only with a name list; the boolean forms also hold from the flag sets |
| Conditions.TrueFlagWins | src/main/java/net/signbit/samx/visitors/RendererVisitor.java:92-99 | a variable among the true flags satisfies its true condition whatever the properties say |
| Conditions.FlagsMonotone | src/main/java/net/signbit/samx/visitors/RendererVisitor.java:69-127 | adding flags never falsifies a boolean condition and does not change the other forms |
| Conditions.NotBothFromProperties | src/main/java/net/signbit/samx/visitors/RendererVisitor.java:92-127 | without flags a variable cannot satisfy both its true and false conditions |
| Conditions.UnsetIsFalse | src/main/java/net/signbit/samx/visitors/RendererVisitor.java:130-200 | comparisons and set tests are false, so disable, when the property is unset |
| Conditions.EqualsVersusNotEquals | src/main/java/net/signbit/samx/visitors/RendererVisitor.java:139-151 | with the property set, `=` holds exactly when the value matches and exactly when `!=` does not |
| Conditions.InVersusNotIn | src/main/java/net/signbit/samx/visitors/RendererVisitor.java:160-200 | with the property and a name list, exactly one of "in" and "not in" holds; with no list, neither |
| Conditions.Insert | src/main/java/net/signbit/samx/visitors/RendererVisitor.java:327-342 | a disabled insertion does nothing, an undefined name fails, and otherwise exactly the blocks of the fragment defined under that name are inserted |
| Conditions.DefineThenInsert | src/main/java/net/signbit/samx/visitors/RendererVisitor.java:319-342 | an enabled insertion after a definition yields the defined blocks, replacing any earlier definition |
| Conditions.DefineLeavesOthers | src/main/java/net/signbit/samx/visitors/RendererVisitor.java:319-324 | a definition does not change insertions under other names |
| Conditions.IndentShape | src/main/java/net/signbit/samx/visitors/RendererVisitor.java:306-312 | the indent is two spaces per level, and nothing for a level of zero or less |
| Conditions.Renderer.constructor | src/main/java/net/signbit/samx/visitors/RendererVisitor.java:40-50 | no properties, no flags, no fragments, level 0 and nothing written |
| Conditions.Renderer.SetProperties | src/main/java/net/signbit/samx/visitors/RendererVisitor.java:64-67 | the properties are replaced and nothing else changes |
| Conditions.Renderer.SetTrueFlags | src/main/java/net/signbit/samx/visitors/RendererVisitor.java:69-75 | null leaves the true flags as they were; otherwise the names join them; nothing else changes |
| Conditions.Renderer.SetFalseFlags | src/main/java/net/signbit/samx/visitors/RendererVisitor.java:77-83 | null leaves the false flags as they were; otherwise the names join them; nothing else changes |
| Conditions.Renderer.DefineFragment | src/main/java/net/signbit/samx/visitors/RendererVisitor.java:319-324 | the fragment is stored under its name, replacing any earlier one |
| Conditions.Renderer.SkipIndent | src/main/java/net/signbit/samx/visitors/RendererVisitor.java:290-293 | indentation is switched off and nothing else changes |
| Conditions.Renderer.AddIndentTo | src/main/java/net/signbit/samx/visitors/RendererVisitor.java:306-312 | the builder gains the indent of the current level |
| Conditions.Renderer.AddIndent | src/main/java/net/signbit/samx/visitors/RendererVisitor.java:295-304 | the output gains the indent of the current level, or nothing when indentation is off, and the count grows by its length |
| Conditions.Renderer.Append | src/main/java/net/signbit/samx/visitors/RendererVisitor.java:244-255 | the text is written and its length counted |
| CppLayout.UnitWidth | src/main/java/net/signbit/samx/literate/CppVisitor.java:184-187 | a unit width is 0, 8, 16, 32 or 64 |
| CppLayout.UnitWidthNames | src/main/java/net/signbit/samx/literate/CppVisitor.java:184-187 | each non-zero width comes from exactly its own header name; every other name gives 0 |
| CppLayout.DecimalText | src/main/java/net/signbit/samx/literate/CppVisitor.java:138 | the printed digits denote the number, with no leading zero except for 0 itself |
| CppLayout.IsNative | src/main/java/net/signbit/samx/literate/CppVisitor.java:129-132 | a member is native exactly when its type is `unsigned` |
| CppLayout.TypeOf | src/main/java/net/signbit/samx/literate/CppVisitor.java:134-144 | a native member's type is `uint`, the decimal digits of the unit width and `_t`; any other type is kept as written |
| CppLayout.GetInt | src/main/java/net/signbit/samx/literate/CppVisitor.java:66-77 | an absent cell reads as -1, a present one as its number |
| CppLayout.NewMember | src/main/java/net/signbit/samx/literate/CppVisitor.java:100-122 | a member keeps its cells and bit offset, and a `bitfield` type is replaced by the referenced name |
| CppLayout.TypeOfUnits | src/main/java/net/signbit/samx/literate/CppVisitor.java:129-144 | `unsigned` becomes uint8_t, uint16_t, uint32_t or uint64_t for the four units and uint0_t for an unknown unit name; other types pass through; the result is never `unsigned` |
| CppLayout.EnabledStep | src/main/java/net/signbit/samx/literate/CppVisitor.java:252-261 | a record row joins the members unless its condition disables it; a separator adds nothing |
| CppLayout.EnabledRows | src/main/java/net/signbit/samx/literate/CppVisitor.java:252-261 | there are never more members than rows, and without conditions every row is a member |
| CppLayout.Members | src/main/java/net/signbit/samx/literate/CppVisitor.java:262-270 | one member per enabled row |
| CppLayout.LayoutStep | src/main/java/net/signbit/samx/literate/CppVisitor.java:262-274 | one more member sits at the running offset, which then advances by its width and restarts only at exactly 32; the largest unit offset may rise |
| CppLayout.MembersAt | src/main/java/net/signbit/samx/literate/CppVisitor.java:262-270 | member k sits at the offset left by the members before it |
| CppLayout.DwordCountIsMax | src/main/java/net/signbit/samx/literate/CppVisitor.java:271-285 | the largest unit offset is at least 0, bounds every member's unit offset, and is 0 or one of them, so the size is at least 1 |
| CppLayout.AlignedPrefix | src/main/java/net/signbit/samx/literate/CppVisitor.java:264-268 | a structure whose members stay inside their words keeps that property for every prefix |
| CppLayout.AlignedOffsets | src/main/java/net/signbit/samx/literate/CppVisitor.java:264-268 | when no member crosses a 32-bit boundary the running offset is the sum of the widths modulo 32 |
| CppLayout.SumModStep | src/main/java/net/signbit/samx/literate/CppVisitor.java:264-268 | adding a width that stays inside the word to an offset modulo 32 matches the restart at exactly 32 |
| CppLayout.AlignedMembers | src/main/java/net/signbit/samx/literate/CppVisitor.java:262-268 | in such a structure each member starts inside its word and ends at or before the word's end |
| CppLayout.SkippedBoundaryNotReset | src/main/java/net/signbit/samx/literate/CppVisitor.java:264-268 | widths 24 and 16 leave the running offset at 40, so the next member's bit offset is 40: a total that jumps past 32 is not restarted |
| CppLayout.FromGroup | src/main/java/net/signbit/samx/literate/CppVisitor.java:310-328 | a group's field takes the group's values, and has an enumeration type, its own name, exactly when the group has several rows |
| CppLayout.FromRow | src/main/java/net/signbit/samx/literate/CppVisitor.java:330-341 | a row's field takes the row's values and is never an enumeration |
| CppLayout.IsBoolean | src/main/java/net/signbit/samx/literate/CppVisitor.java:358-361 | a one-bit field is a boolean |
| CppLayout.IsEnumeration | src/main/java/net/signbit/samx/literate/CppVisitor.java:363-366 | an enumeration has an enumeration type and is wider than one bit, so it is never a boolean |
| CppLayout.Collapses | src/main/java/net/signbit/samx/literate/CppVisitor.java:394 | a group collapses into one field when its Name and Offset columns are single-valued; Width is not consulted |
| CppLayout.FieldsCount | src/main/java/net/signbit/samx/literate/CppVisitor.java:392-405 | one field per collapsing group and one per row of every other group; one per group when all collapse |
| CppLayout.EnumerationsFromGroups | src/main/java/net/signbit/samx/literate/CppVisitor.java:320-366 | an enumeration field comes only from a collapsed group of several rows |
| CppLayout.WidthNotConsulted | src/main/java/net/signbit/samx/literate/CppVisitor.java:394 | whether the Width column is single-valued never changes the fields, since the test checks Offset twice and never Width |
| CppLayout.CppVisitor.constructor | src/main/java/net/signbit/samx/literate/CppVisitor.java:178-190 | no members, structures or bit-field types yet |
| CppLayout.CppVisitor.RenderStructure | src/main/java/net/signbit/samx/literate/CppVisitor.java:242-288 | the members are those of the enabled rows at their running offsets, and a structure of that unit width, those members and size one more than the largest unit offset is appended |
| CppLayout.CppVisitor.RenderBitfield | src/main/java/net/signbit/samx/literate/CppVisitor.java:384-420 | a bit-field type with the unit width and the definition's fields is appended |
| CppLayout.Layout | src/main/java/net/signbit/samx/literate/CppVisitor.java:244-276 | the loop yields the members of the enabled rows and the largest unit offset |
| CppLayout.BitFieldDefinition | src/main/java/net/signbit/samx/literate/CppVisitor.java:392-405 | the fields are those of the groups in order: one for a collapsing group, one per row otherwise |

## Left out

- I/O: the writer and its `IOException` path are modelled as an output string that always accepts text. `checkMatch` and `getTokenIndent` read files and token streams and are not part of this model. The StringTemplate rendering of structures and bit-field types is left out; the model keeps the values passed to the templates.
- Ipv4, Udp, Tcp: the byte image of a header on the wire, and the host/network byte swap of whole-word fields, are outside the model. The model works on the words of the containers.
- Ipv4, Udp, Tcp: no single lemma covers a field at a symbolic offset and width. Each field's lemma is stated with its own literal shift and mask.
- Ipv4.IpTos: the Delay, Throughput and Reliability getters return the raw bit as a `bool`. The named enumerations of the header comments are not modelled.
- VisitorUtils.Digit: covers ASCII digits and Latin letters only. The Unicode digit classes of `Character.digit` are not modelled.
- VisitorUtils.CompareFilesExceptWhitespace: returns the two Java exceptions as `Mismatch` and `SizeMismatch` values. Their message texts are not modelled.
- Grid: `AttributeVisitor` (the plain text of a cell's attributes) is not part of this model. A cell carries that text as an input.
- Grid: the order of the width set in the exception message comes from a `HashSet` and is not modelled; the set itself is.
- Grid: `isCurrency` and `isNumeric` are declared but never computed by the source, so they are not modelled.
- RecordSets: rendering by the visitor is an input. A flow or condition carries its rendered text.
- CppLayout: `Integer.parseInt` and `NumberUtils.createInteger` are not modelled; their failures are left out. Structure rows and bit-field rows carry the numbers already parsed.
- CppLayout: a row with fewer cells than the structure reads is not modelled; the cells are given.
- CppLayout: `WordUtils` capitalisation and wrapping of field names and descriptions is not modelled. The texts are kept as given.
- CppLayout: `RecordDataGroup.getValue` and `hasSingleValue` are not in the record-set visitor shown and are not part of this model. A group carries their results as inputs.
- CppLayout: 32-bit overflow of the running bit offset and of the unit offsets is not modelled, because the integers are unbounded.
- Conditions: the compound conditions, an alternative or a combination of two conditions, are not modelled. The base renderer defines no evaluator for them, so `isDisabled` gets the parser visitor's generated default result, which is not part of this model; the XML visitor evaluates them with short-circuit or and and.
- VisitorUtils, Grid, RecordSets: Java measures strings in UTF-16 code units, and the model measures them in Unicode characters. For text with characters outside the Basic Multilingual Plane, the model's column widths, its `Mismatch` index and column and the cursor's column are smaller than the source's.
- CppLayout.CppVisitor.RenderBitfield: the groups are an input and are not tied to the record-set grouping the source uses. A group may therefore have no rows, or single-value flags its rows do not bear out.
- Conditions: `visit(nameList)` in the base renderer has no override, so its result is an input `Option<set<string>>`.
- Conditions: an empty comparison operator, on which `charAt(0)` would throw, is treated as matching neither `=` nor `!`. The grammar does not produce one.
- Conditions: rendering the blocks of an inserted fragment is not modelled. A fragment carries its blocks as texts.
- The near-duplicate `RendererVisitor` in the top-level package is not modelled separately. The condition logic is modelled once.
