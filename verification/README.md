# Verified model of BTPay

Dafny models of the parts of BTPay that hold its state, its arithmetic and its formats, with
proofs of what they promise. `dafny verify dfyconfig.toml` checks the project.

- **Codecs and keys.** Base58Check, Bech32 and Bech32m (BIP 173, BIP 350), descriptor checksums
  (BIP 380), address printing and validation, secp256k1 arithmetic (SEC 1, section 2.2.1), and
  BIP 32 derivation. `ShiftRegister` proves linearity, injectivity and burst detection once, for
  both checksums; `PackedRegister` ties the machine words to it.
- **The object store.** `Indexing`, `Engine`, `Columns`, `Models`, `Query` and `Persistence`:
  tables with hash and unique indexes that must agree with a scan, the fast query path, and a
  save/load cycle that must restore everything.
- **Money.** `Money`, `ExchangeRates`, `Invoicing`, `PaymentAutomation`, `Monitor`, `PaymentRuns`
  and `Fulfillment`: from averaged rates over locked quotes to credited payments, confirmed
  addresses and storefront counters, over whole runs.
- **The rate limiter.** `RateLimit`: a pruned deque that must decide as the whole history would.

Code that changes state is a class or a loop proved against a function on values; the theorems
are about those functions. Hashes, the clock, the network and Python's conversions of foreign
values are parameters.

Two facts of mathematics are hypotheses of the key-derivation results, named in `Curve.Inverts`
and `Secp256k1.GroupFacts`: powers with exponent m - 2 invert nonzero residues for the
program's prime and order (both are prime), and the chord-and-tangent law is associative. What
the program adds is that law (`Secp256k1.AddExactly`), that the generator has the program's
order is proved from the two (`OrderCertificate`, `Secp256k1.FactsOrder`), and that no point
has y = 0 from the first (`CubeCertificate`).

`PublishedVectors` follows the test vectors of BIP 173, BIP 350 and BIP 380 through the model to
the printed strings; `FiveBitWords` does GF(32) in machine words for it.

Where the code falls short of what one would expect of it, the shortfall is proved with its
exact condition: `DescriptorChecksum.BareHashAccepted`, `Base58.CheckRoundTrip`,
`Addresses.PrintedIsValid` (testnet wrapped addresses), `Addresses.TypoAccepted`, `Secp256k1.KeyOnCurve`,
`Engine.WrittenExactly`, `Engine.InsertedExactly`, `Engine.LoadKeepsOrder`, `Engine.FilterIsScan`,
`Columns.StorageRoundTrip`, `Invoicing.AdmittedQuoteSuffices`, `Invoicing.RecordedExactly`,
`PaymentRuns.RunsKeepExactly` (the unchecked markup), `Monitor.OwnTierExactly`,
`Fulfillment.CountedExactly` and `RateLimit.AgreesExactly`. Where the condition does not show
one, a lemma with a concrete input stands beside it: `DescriptorChecksum.LineBreakAccepted`,
`Secp256k1.ModulusIsOffCurve`, `Engine.MissingSequenceReplaces`,
`Invoicing.TinyQuoteStaysPending`, `Invoicing.CreditUndoesConfirmed`,
`Monitor.TopUpPassesLowTier` and `RateLimit.CleanupForgets`.
The documentation of `fulfill_storefront_invoice` (btpay/storefront/fulfillment.py:19-20) calls
it safe to call any number of times; `Fulfillment.CountedExactly` says when that is so.

## Model

| member | source | states |
|---|---|---|
| ConvertBits.Convert | btpay/bitcoin/xpub.py:137-154 | The accumulator loop regroups any list of symbols as cutting the concatenated bits does: it raises exactly where the unpadded rest is too long or not zero, and its unmasked accumulator changes nothing. |
| ConvertBits.EightToFive | btpay/bitcoin/xpub.py:137-154 | Regrouping bytes with padding never raises, gives ceil(8n/5) symbols below 32, and keeps all bits of the bytes in order. |
| ConvertBits.RoundTrip | btpay/bitcoin/xpub.py:137-154 | Eight to five bits with padding, then five to eight without, gives back any list of bytes. |
| ShiftRegister.StepLinear | btpay/bitcoin/xpub.py:115-123 | A checksum step of either polymod is linear over GF(2) in state and input together, for registers of any length and taps. |
| ShiftRegister.RunInjective | btpay/bitcoin/xpub.py:115-123 | Feeding the same symbols keeps different states different, for any register whose last taps are invertible. |
| ShiftRegister.BurstDetected | btpay/bitcoin/xpub.py:115-123 | Two inputs that differ only within as many consecutive symbols as the register has end in different states, whatever surrounds them. |
| ShiftRegister.CompletionIsUnique | btpay/bitcoin/xpub.py:130-134 | From every state there is exactly one input of the register's length that reaches a given target. |
| ShiftRegister.StepDivides | btpay/bitcoin/xpub.py:115-123 | If the rows of the tap table are the multiples by 1, x, .., x^4 of a polynomial over GF(32), modulo x^5 + x^3 + 1, a step is one of polynomial division: what falls out, times the polynomial, is taken from the shifted rest. |
| PackedRegister.WordRuns | btpay/bitcoin/descriptors.py:18-31 | The machine-word polymod (shift, mask, conditional XORs of generator words) is the symbol-wise register, for any number of steps; it also bounds the word. |
| PackedRegister.ChecksumFromWord | btpay/bitcoin/descriptors.py:50-55 | The symbols read off the word after feeding zeros and XORing the target are the one completion that reaches the target. |
| Bech32.Polymod | btpay/bitcoin/xpub.py:115-123 | The loop computes the word of the register with the five BIP 173 generators. |
| Bech32.GeneratorPolynomial | btpay/bitcoin/xpub.py:115-123 | The five generator words are the multiples, in GF(32), of the polynomial of BIP 173, with coefficients 29, 22, 20, 21, 29 and 18 behind the leading one. |
| Bech32.RegisterInvertible | btpay/bitcoin/xpub.py:112-123 | The BIP 173 generator has invertible last taps, so no nonzero state is ever forgotten. |
| Bech32.PolymodResidue | btpay/bitcoin/xpub.py:115-123 | The 30-bit word, cut into six symbols, is the residue of the symbol register. |
| Bech32.CreateChecksum | btpay/bitcoin/xpub.py:130-134 | The created checksum is the one list of six symbols that makes the values verify. |
| Bech32.ChecksumCorrectAndUnique | btpay/bitcoin/xpub.py:130-134 | For every human-readable part, data and spec constant, six symbols verify if and only if they are the created checksum. |
| Bech32.BurstErrorDetected | btpay/bitcoin/xpub.py:115-134 | In any verifying string, every change confined to six consecutive symbols, so any single one, makes verification fail, for either spec constant. |
| Bech32.Encode | btpay/bitcoin/xpub.py:157-162 | The printed string is prefix, separator and the charset characters of version, regrouped program and checksum; Bech32m from version 1 on. |
| Bech32.EncodeDecodes | btpay/bitcoin/xpub.py:157-162 | A decoder written from BIP 173 and BIP 350 reads an encoded address as a prefix, version and program if and only if they are the encoded ones. |
| PublishedVectors.Bip173 | btpay/bitcoin/xpub.py:112-134 | BIP 173, a valid string: the values 0 to 31 behind the part abcdef print, with their checksum, as qpzry9x8gf2tvdw0s3jn54khce6mua7lmqqqxw. |
| PublishedVectors.Bip173Address | btpay/bitcoin/xpub.py:157-162 | BIP 173, its example: version 0 and the key hash 751e76e8..433bd6 print as bc1qw508d6qejxtdg4y5r3zarvary0c5xw7kv8f3t4. |
| PublishedVectors.Bip350Address | btpay/bitcoin/xpub.py:157-162 | BIP 350, its test vector: version 1 and the program 79be667e..f81798 print as bc1p0xlxvlhemja6c4dqv22uapctqupfhlxm9h8z3k2e72q4k9hcz7vqzk5jj0. |
| DescriptorChecksum.Polymod | btpay/bitcoin/descriptors.py:18-31 | One step of the 40-bit machine feeds one more symbol to the register word. |
| DescriptorChecksum.GeneratorPolynomial | btpay/bitcoin/descriptors.py:18-31 | The five generator words are the multiples, in GF(32), of the polynomial of BIP 380, with coefficients 30, 23, 15, 14, 10, 6, 12 and 9 behind the leading one. |
| DescriptorChecksum.RegisterInvertible | btpay/bitcoin/descriptors.py:18-31 | The BIP 380 generator has invertible last taps. |
| DescriptorChecksum.Checksum | btpay/bitcoin/descriptors.py:34-55 | The loop over characters, with its running class group, computes the checksum of the expanded symbols; a character outside the set gives the empty string. |
| DescriptorChecksum.SpellChecksum | btpay/bitcoin/descriptors.py:52-55 | Eight zero steps and the final XOR spell the checksum symbols. |
| DescriptorChecksum.VerifyChecksum | btpay/bitcoin/descriptors.py:58-67 | Verification splits at the last hash and compares; without a hash everything is accepted. |
| DescriptorChecksum.ChecksumCompletes | btpay/bitcoin/descriptors.py:34-55 | With its checksum appended, a descriptor's symbols leave the register at 1, as BIP 380 asks. |
| DescriptorChecksum.SuffixAccepted | btpay/bitcoin/descriptors.py:58-67 | After the last hash, exactly the computed checksum is accepted. |
| DescriptorChecksum.AppendedVerifies | btpay/bitcoin/descriptors.py:34-67 | For every descriptor of any length, appending its checksum verifies and returns the descriptor. |
| DescriptorChecksum.BareHashAccepted | btpay/bitcoin/descriptors.py:41-43 | A bare trailing hash is accepted if and only if the descriptor has a character outside the set: the code then compares two empty checksums. |
| DescriptorChecksum.LineBreakAccepted | btpay/bitcoin/descriptors.py:58-67 | An instance: a line break followed by a bare hash is accepted. |
| DescriptorChecksum.TwoGroupErrorChangesChecksum | btpay/bitcoin/descriptors.py:34-55 | Descriptors of one length that differ only within two consecutive groups of three characters have different checksums. |
| DescriptorChecksum.CorruptionRejected | btpay/bitcoin/descriptors.py:34-67 | Replacing characters within two consecutive groups, by any characters, makes the old checksum fail. |
| DescriptorChecksum.FourCharacterErrorRejected | btpay/bitcoin/descriptors.py:34-67 | Any change within four consecutive characters, so any single one, is rejected. |
| DescriptorChecksum.InputCharset | btpay/bitcoin/descriptors.py:12-14 | The set the program uses is the 95 printable ASCII characters, each at exactly one position, in three classes. |
| DescriptorChecksum.InSetExactly | btpay/bitcoin/descriptors.py:41-43 | A descriptor is in the set, and so has a checksum, if and only if all its characters are printable ASCII. |
| PublishedVectors.Bip380 | btpay/bitcoin/descriptors.py:34-67 | BIP 380, its test vector: the checksum of raw(deadbeef) is 89f8spxm, and with it the descriptor verifies. |
| Base58.FromBytes | btpay/bitcoin/xpub.py:66-69 | The accumulation loop computes the base-256 number. |
| Base58.Encode | btpay/bitcoin/xpub.py:66-79 | The digit loop writes the base-58 digits of the number, and a one for each leading zero byte. |
| Base58.CheckEncode | btpay/bitcoin/xpub.py:82-85 | Encoding appends the first four bytes of the double hash. |
| Base58.DoubleHash | btpay/bitcoin/xpub.py:56-58 | The checksum is the first four bytes of the hash of the hash, for any hash of 32 bytes. |
| Base58.RankOf | btpay/bitcoin/xpub.py:63 | The alphabet, by ASCII ranges: digits without 0, capitals without I and O, small letters without l. |
| Base58.ReadNumber | btpay/bitcoin/xpub.py:88-93 | Reading accumulates the base-58 number, and fails exactly on a character outside the alphabet. |
| Base58.CheckDecode | btpay/bitcoin/xpub.py:88-107 | The decoder rebuilds minimal bytes behind one zero byte per leading one, and checks the four last bytes. |
| Base58.AddressDecode | btpay/security/validators.py:131-147 | The validator's decoder rebuilds at least 25 bytes from the number alone and checks the four last bytes. |
| Base58.Canonical | btpay/bitcoin/xpub.py:66-107 | Any digit list is its leading zeros followed by the minimal digits of its number, in any base. |
| Base58.RawRoundTrip | btpay/bitcoin/xpub.py:66-107 | Through the two number bases every byte list comes back with its leading zeros, except that an all-zero one gains a byte. |
| Base58.CheckRoundTrip | btpay/bitcoin/xpub.py:82-107 | Decoding an encoded payload returns it if and only if payload and checksum are not all zero, for any hash. |
| Base58.DecodeEncode | btpay/bitcoin/xpub.py:82-107 | Any string that decodes, and is not all ones, is the encoding of what it decodes to: there are no two spellings. |
| Base58.AddressRoundTrip | btpay/security/validators.py:131-147 | The validator's decoder returns every 21-byte payload, all-zero ones included. |
| Base58.DecodersRebuildSame | btpay/security/validators.py:131-147 | The two decoders rebuild the same bytes from a string exactly if its leading ones and minimal bytes make up the length that the validator pads to. |
| Addresses.ZeroVersionLength | btpay/bitcoin/xpub.py:351-356 | A version-0 address has 25 to 34 characters and starts with a one. |
| Addresses.VersionShape | btpay/bitcoin/xpub.py:358-366 | Version 5 always gives 34 characters starting with digit 2, so a leading 3; version 111 gives 34 starting with m or n; version 196 gives 35. |
| Addresses.PrintSegwit | btpay/bitcoin/xpub.py:368-373 | The native segwit printer encodes the key hash under the network's prefix. |
| Addresses.Print | btpay/bitcoin/xpub.py:351-373 | The three printers encode the version byte and hash, or the segwit program. |
| Addresses.PayloadExactly | btpay/bitcoin/xpub.py:351-366 | A Base58 address commits to the hash of the key behind 0x00 or 0x6f, or to the hash of the version 0 witness program 0x00 0x14 and the key hash behind 0x05 or 0xc4, for any hash of 20 bytes. |
| PublishedVectors.PrintedVector | btpay/bitcoin/xpub.py:368-373 | A key with the HASH160 of the example of BIP 173 prints as its address. |
| PublishedVectors.LegacyVector | btpay/bitcoin/xpub.py:351-356 | The P2PKH address of a key with that HASH160 is 1BgGZ9tcN4rm9KBzDn7KprQz87SZ26SAMH, if the double hash of its payload starts with 510d1634. |
| Addresses.PrintedIsValid | btpay/security/validators.py:85-128 | The validator accepts a printed address if and only if it is a mainnet one, or testnet is allowed and it is not a wrapped one: those have 35 characters and are always refused. |
| Addresses.ValidateExactly | btpay/security/validators.py:85-128 | The validator returns the stripped address if and only if that has a segwit part in either case, 14 to 74 characters and only characters of the set behind the part, or a Base58 first character, 25 to 34 characters and a checksum that fits; otherwise it raises. |
| Addresses.TypoAccepted | btpay/security/validators.py:97-106 | So the segwit checksum is not looked at: any other character of the set at any place behind the part of a printed mainnet address is accepted, though no decoder reads the result as a version 0 address. |
| Addresses.DecodersAgree | btpay/security/validators.py:131-147 | On printed addresses the validator's decoder returns the payload, and so does the deriver's unless all bytes are zero. |
| Curve.PointAddOnCurve | btpay/bitcoin/xpub.py:199-214 | Chord and tangent sums of two points of y^2 = x^3 + 7 are on the curve or infinity, given that modinv inverts; only doubling a point with y = 0 is excluded. |
| Curve.PointAddIsSum | btpay/bitcoin/xpub.py:199-214 | The sum is the chord-and-tangent one: its opposite is on the line through both points, or on the tangent if they are the same, the three abscissas are all that the line and the cubic have in common, counted with multiplicity, opposite points give infinity, and infinity changes nothing. |
| Curve.SumUnique | btpay/bitcoin/xpub.py:199-214 | Two points have only one sum by that law. |
| Curve.NoZeroOrdinate | btpay/bitcoin/xpub.py:196-214 | If -7 to the power (m-1)/3 is not 1, no point has y = 0. |
| CubeCertificate.NoPointWithZeroOrdinate | btpay/bitcoin/xpub.py:189-192 | On secp256k1 no point has y = 0, by a chain of squarings modulo the program's prime. |
| DoubleAndAdd.ScalarMult | btpay/bitcoin/xpub.py:216-224 | The loop over the bits of k computes the double-and-add recursion, for any addition. |
| DoubleAndAdd.LoopOk | btpay/bitcoin/xpub.py:216-224 | Every point the loop goes through stays in any set the addition is closed on. |
| DoubleAndAdd.LoopIsMultiple | btpay/bitcoin/xpub.py:216-224 | For every k and any associative addition with an identity, double-and-add is the k-fold sum. |
| Secp256k1.GeneratorValid | btpay/bitcoin/xpub.py:193-194 | The generator is on the curve. |
| Secp256k1.AddValid | btpay/bitcoin/xpub.py:199-214 | Addition never leaves the curve, given only that modinv inverts. |
| Secp256k1.AddExactly | btpay/bitcoin/xpub.py:199-214 | On secp256k1 the addition gives a point if and only if that is the chord-and-tangent sum. |
| OrderCertificate.OrderIsInfinity | btpay/bitcoin/xpub.py:189-194 | Any function that starts at the generator and turns sums of numbers into sums of points has infinity at the program's order, by a chain of doublings and additions with a certificate for each. |
| Secp256k1.FactsOrder | btpay/bitcoin/xpub.py:189-194 | A multiple of the generator is infinity if and only if the factor is a multiple of the program's order. |
| Secp256k1.TimesReduced | btpay/bitcoin/xpub.py:216-224 | Multiples of the generator depend only on the factor modulo the order. |
| Secp256k1.TweakAdd | btpay/bitcoin/xpub.py:187-255 | Tweaking decompresses, multiplies, adds and compresses, and raises on a wrong length, a tweak out of range, or infinity. |
| Secp256k1.TweakIsSum | btpay/bitcoin/xpub.py:243-255 | From a key on the curve: the child decompresses to the chord-and-tangent sum of the key and the tweak times the generator, and there is none only if that sum is infinity or the tweak is out of range. |
| Secp256k1.TweakOfGenerator | btpay/bitcoin/xpub.py:187-255 | An instance: the key of the generator, 02 79BE667E..16F81798, tweaked by 1 is 02 C6047F94..5C709EE5. |
| Secp256k1.KeyOnCurve | btpay/bitcoin/xpub.py:226-235 | A compressed key decompresses onto the curve if and only if its abscissa is below the prime and x^3 + 7 passes Euler's test for squares, which is if and only if the curve has a point with that abscissa; the code does not check. |
| Secp256k1.ModulusIsOffCurve | btpay/bitcoin/xpub.py:226-235 | An instance: the prefix 2 with the field modulus as abscissa is a 33-byte key that decompresses off the curve, and nothing raises. |
| Secp256k1.ChildOnCurve | btpay/bitcoin/xpub.py:243-255 | From a key on the curve only keys on the curve are derived. |
| Secp256k1.TweakOfMultiple | btpay/bitcoin/xpub.py:243-255 | Tweaking the key of k by t gives the key of k + t, and raises exactly if t is out of range or k + t is a multiple of the order. |
| CompressedKeys.CompressDecompress | btpay/bitcoin/xpub.py:226-240 | Compressing a decompressed key gives back every 33-byte key with prefix 2 or 3, on the curve or not. |
| CompressedKeys.DecompressCompress | btpay/bitcoin/xpub.py:226-240 | Decompressing a compressed point of the curve gives it back: the power (P+1)/4 is a root and the prefix picks the right one. |
| CompressedKeys.RootSquares | btpay/bitcoin/xpub.py:231-232 | The power with exponent (m+1)/4 of a square is a square root of it. |
| CompressedKeys.AbscissaExactly | btpay/bitcoin/xpub.py:226-235 | For any such prime, the curve has a point with an abscissa if and only if the abscissa is reduced and the power of x^3 + 7 with exponent (m-1)/2 is 1. |
| KeyDerivation.DeriveChild | btpay/bitcoin/xpub.py:303-331 | Child derivation raises on a hardened or unpackable index, on an out-of-range left half, and on infinity, and otherwise gives the tweaked key, the right half and the next depth. |
| KeyDerivation.ChildExactly | btpay/bitcoin/xpub.py:303-331 | BIP 32: from index 2^31 on there is no child; below, with I the 64 bytes that the hash gives, under the chain code, of the key followed by the index in four big-endian bytes: the key is tweaked by the left half of I, the right half is the chain code, and the depth is one more. |
| KeyDerivation.DerivePath | btpay/bitcoin/xpub.py:333-349 | Splits the text at slashes, skips empty parts, raises on a hardened part or one that is no number, and otherwise derives the steps in order, raising where the first of them does. |
| KeyDerivation.PathRoundTrip | btpay/bitcoin/xpub.py:333-349 | The text of any list of indices is read back as exactly that list. |
| KeyDerivation.PathAround | btpay/bitcoin/xpub.py:338-349 | Whitespace around that text, and slashes inside of it, make no difference. |
| KeyDerivation.PartRefused | btpay/bitcoin/xpub.py:342-348 | A path with a part that ends in ' or h, or is no number, is refused. |
| Strings.StripAround | btpay/bitcoin/xpub.py:338-343 | Stripping returns what is between anything to be dropped on both sides. |
| Strings.SplitJoined | btpay/bitcoin/xpub.py:342 | Splitting undoes joining parts free of the separator. |
| Strings.JoinedSplit | btpay/bitcoin/xpub.py:342 | Joining undoes splitting, and no part holds the separator. |
| Numerals.ReadsAppended | btpay/bitcoin/xpub.py:348 | A text reads as a number digit by digit, with single underscores between, and not with anything else at its end. |
| Numerals.ReadsSigned | btpay/bitcoin/xpub.py:348 | A sign before the digits and whitespace around are taken. |
| KeyDerivation.ChildCommutes | btpay/bitcoin/xpub.py:303-331 | Deriving from the public key gives the public counterpart of deriving from the private key, and fails in exactly the same cases (BIP 32). |
| KeyDerivation.PathCommutes | btpay/bitcoin/xpub.py:333-349 | The same for whole paths of any length. |
| Indexing.HashIndex.Add | btpay/orm/indexing.py:11-14 | Adds the key to the set of the value. |
| Indexing.HashIndex.Remove | btpay/orm/indexing.py:16-20 | Discards the key and drops a set that becomes empty. |
| Indexing.HashIndex.Get | btpay/orm/indexing.py:22-24 | Returns the keys of a value, none if there are none. |
| Indexing.HashIndex.AllPks | btpay/orm/indexing.py:26-30 | Returns exactly the keys held for some value. |
| Indexing.UniqueIndex.Add | btpay/orm/indexing.py:42-45 | Raises exactly if the value belongs to another key, and then changes nothing. |
| Indexing.UniqueIndex.Remove | btpay/orm/indexing.py:47-49 | Removes the value only if the key holds it. |
| Indexing.UniqueIndex.Get | btpay/orm/indexing.py:51-53 | Returns the one key of a value, or none. |
| Indexing.ReplaceCoherent | btpay/orm/engine.py:121-142 | Replacing a row without conflict keeps the index of a column in agreement with a scan on every value but None. |
| Indexing.ConflictExactly | btpay/orm/indexing.py:42-45 | A replacement conflicts if and only if the column is unique and another row holds the new value. |
| Indexing.RemoveCoherent | btpay/orm/engine.py:144-154 | Removing a row keeps the index in agreement with the rest of the table. |
| Indexing.CoherentDetermined | btpay/orm/engine.py:121-142 | Agreement with a table leaves an index no freedom. |
| Engine.UpdatedEach | btpay/orm/engine.py:121-142 | The column loop succeeds if and only if no column conflicts, and then has replaced every index; otherwise one conflicting index has only lost its old value. |
| Engine.WrittenExactly | btpay/orm/engine.py:47-56 | A write succeeds if and only if it breaks no unique constraint; the row is in the table in either case, and the indexes agree with the table afterwards exactly if it succeeded. |
| Engine.InsertedExactly | btpay/orm/engine.py:47-50 | An insert under an id already in the table keeps the indexes in agreement if and only if the old row had nothing, or the same value, in every indexed column. |
| Engine.RegisteredInOrder | btpay/orm/engine.py:26-39 | A registered model starts in order, with a unique or a hash index for exactly the columns that ask for one. |
| Engine.StepExactly | btpay/orm/engine.py:41-197 | From a model in order, each operation, a load included, succeeds and leaves the model in order exactly if it is allowed; other than a load, it raises exactly if it is not, and keeps ids below the sequence in any case. |
| Engine.RunKeepsOrder | btpay/orm/engine.py:41-197 | Over every run of inserts, updates, deletes, clears and loads that are allowed, the indexes agree with the table, ids stay below the sequence, and the table and sequence are what a plain table with a counter would have. |
| Engine.IdsIncrease | btpay/orm/engine.py:41-45 | Over every run, conflicts and loads included, without clear, in which loads set no lower sequence and list only ids below the one that holds afterwards: no id is issued twice and every id in the table is below the sequence. |
| Engine.FilterIsScan | btpay/orm/engine.py:74-115 | An indexed filter finds what a scan finds, whichever index it picks, if and only if it does not ask the picked index for None while some row would match. |
| Engine.LoadedExactly | btpay/orm/engine.py:179-197 | Loading any list of rows, an id listed twice included, into any agreeing model succeeds with agreeing indexes if and only if every row converts, no indexed value of a row there before or listed before is replaced by another, and no unique value ends up shared. |
| Engine.LoadedColumns | btpay/orm/engine.py:179-197 | Loading a row converts every column it has and changes nothing else, and raises if and only if a conversion does. |
| Engine.LoadKeepsOrder | btpay/orm/persistence.py:165-169 | Such a load keeps the model in order if and only if, with the sequence that loading rows sets, no id in the table is above the largest one loaded, and, with the sequence of a file, every id then in the table is below it. |
| Engine.MissingSequenceReplaces | btpay/orm/persistence.py:168-169 | A file without a sequence sets it to 1, and if that is an id in the table the next new instance replaces its row. |
| Engine.MemoryStore.RegisterModel | btpay/orm/engine.py:26-39 | Registers a model once; later registrations change nothing. |
| Engine.MemoryStore.NextPk | btpay/orm/engine.py:41-45 | Returns the sequence and advances it by one. |
| Engine.MemoryStore.Insert | btpay/orm/engine.py:47-50 | Writes the row, then updates the indexes from an empty old row. |
| Engine.MemoryStore.Update | btpay/orm/engine.py:52-56 | Writes the row, then updates the indexes from the old row. |
| Engine.MemoryStore.Delete | btpay/orm/engine.py:58-62 | Removes the row and its index entries. |
| Engine.MemoryStore.GetRow | btpay/orm/engine.py:64-67 | Returns the row, or none if it is absent or empty. |
| Engine.MemoryStore.Filter | btpay/orm/engine.py:74-115 | The loop over conditions and candidates computes the filtered table; unknown models have no rows. |
| Engine.MemoryStore.UpdateIndexes | btpay/orm/engine.py:121-142 | Updates the indexes column by column and stops at the first conflict. |
| Engine.MemoryStore.RemoveIndexes | btpay/orm/engine.py:144-154 | Removes the values of a row from every index. |
| Engine.MemoryStore.Clear | btpay/orm/engine.py:156-163 | Empties every table and index and starts every sequence at 1 again. |
| Engine.MemoryStore.LoadTableData | btpay/orm/engine.py:179-197 | Loads row by row and sets the sequence last; it stops where a conversion or an index raises. |
| Models.Save | btpay/orm/model.py:86-123 | Saving validates every column first, then inserts under a new id or updates; nothing is stored if a column does not validate. |
| Models.ValidatedColumns | btpay/orm/model.py:101-107 | A saved row has exactly the columns, each with the validated attribute. |
| Models.SavedRowStable | btpay/orm/model.py:101-107 | What save writes reads back unchanged. |
| Columns.ValidatedIsStable | btpay/orm/columns.py:80-194 | Reading back a validated value as stored does not change it, for every column type. |
| Columns.ValidatedTyped | btpay/orm/columns.py:32-180 | Validation gives a value of the column's type, leaves one that has it as it is, and refuses None if and only if the column is required. |
| Columns.StorageRoundTrip | btpay/orm/columns.py:80-194 | The storage form of a validated value reads back if and only if it is not a stray value in a datetime column, which is stored as None. |
| Columns.SortedKeepsElements | btpay/orm/columns.py:182-194 | A set of strings written as a sorted list is the same set again. |
| Columns.SortedAscends | btpay/orm/columns.py:182-194 | The list is in ascending order. |
| Query.MatchConditions | btpay/orm/query.py:58-108 | Conditions are tried in order; the first that fails or raises decides. |
| Query.MatchesAllExactly | btpay/orm/query.py:58-108 | Conditions match if and only if each is met, and raise if and only if one raises behind conditions that are met. |
| Query.ParsedExactly | btpay/orm/query.py:60-64 | A keyword without a double underscore is a column to be equal; one with a double underscore before the operator names the column and the operator. |
| Query.OrderOperators | btpay/orm/query.py:68-82 | exact and ne are opposites, and so are gt and lte, lt and gte on values that compare; only equals are both gte and lte, None is none of the four, and values that do not compare raise. |
| Query.OtherOperators | btpay/orm/query.py:83-106 | in asks the condition's value for the row's, contains the other way round and only of sets, lists and texts; startswith means that something completes the prefix, iexact that the lower cases are equal, and any other name raises. |
| Query.MatchRow | btpay/orm/query.py:48-56 | A row matches if it meets all filters and no exclude. |
| Query.MatchesRowExactly | btpay/orm/query.py:48-56 | A row is taken if and only if it matches every filter and no exclude. |
| Query.Execute | btpay/orm/query.py:110-126 | One plain filter goes to the store; anything else scans, and raises if matching some row does. |
| Query.SimpleScan | btpay/orm/query.py:110-126 | A filter without operators scans to the rows that have the values. |
| Query.FastPathIsFallback | btpay/orm/query.py:115-126 | The fast path gives what the scan would, if and only if it does not ask the picked index for None while some row would match. |
| Query.ChainedFilters | btpay/orm/query.py:28-31 | Chained filter calls scan to the rows that one call with all conditions does. |
| Persistence.DecodeEncode | btpay/orm/persistence.py:15-35 | Encoding a value and decoding it with the bottom-up hook gives it back if and only if no dict in it has a reserved key. |
| Numerals.IntRoundTrip | btpay/orm/engine.py:165-184 | An id written as a JSON key reads back as the id, by a reader that also takes signs, underscores between digits and whitespace around. |
| Persistence.SaveLoadRestores | btpay/orm/persistence.py:61-78 | Saving a model in order and loading its file into an empty registered one restores rows, sequence and indexes. |
| Persistence.RunRestores | btpay/orm/persistence.py:152-169 | The same after every run of allowed operations, loads included, over rows that survive the encoding. |
| Persistence.SavedRunRestores | btpay/orm/model.py:86-123 | The same for runs whose rows are what save writes of validated attributes without reserved keys. |
| Persistence.FileKeepsOrder | btpay/orm/persistence.py:165-169 | Loading a file of the saved shape into any model in order succeeds and keeps it in order exactly if none of its rows raises and, as an operation of the runs, the load is allowed; then its sequence is above every id. |
| Persistence.RestartRestores | btpay/orm/persistence.py:152-169 | The same for the file in whatever order it lists the rows. |
| Persistence.SaveToDisk | btpay/orm/persistence.py:44-99 | Every model gets a file with all its rows and its sequence, unless writing it fails; then the old file stays and the others are written. The meta file names every model once. |
| Persistence.LoadModel | btpay/orm/persistence.py:152-169 | Loads one file: rows first, up to one that raises, then the saved sequence if none does. |
| Persistence.LoadFromDisk | btpay/orm/persistence.py:142-174 | Loads the models that the meta file names, in order, skipping those that are not registered or have no file; without a meta file nothing is loaded, and a file that fails stops no other. |
| Persistence.SaveThenLoad | btpay/orm/persistence.py:61-174 | Saving a whole store whose models are in order into any data directory, and loading it into another store with the same models registered and no rows, gives the same tables, sequences and indexes. |
| ExchangeRates.ValidatedExactly | btpay/bitcoin/exchange.py:267-293 | A rate passes if and only if it is positive, at most 500 million, and for USD between 10,000 and 2 million. |
| ExchangeRates.AverageBetween | btpay/bitcoin/exchange.py:295-322 | The average lies between any bounds on the rates. |
| ExchangeRates.AverageOfSameRates | btpay/bitcoin/exchange.py:295-322 | The average does not depend on the order of the sources. |
| ExchangeRates.AverageNearMedian | btpay/bitcoin/exchange.py:307-322 | With three or more positive rates the all-outliers fallback is unreachable and the average is within 5% of the middle rate. |
| ExchangeRates.MedianExactly | btpay/bitcoin/exchange.py:308-310 | The median is the one value with at most half of the rates below it and more than half up to it. |
| ExchangeRates.AverageExactly | btpay/bitcoin/exchange.py:307-322 | Of three or more positive rates the average, times their number, is the sum of exactly those from 95 to 105 percent of the median. |
| ExchangeRates.AverageOfFew | btpay/bitcoin/exchange.py:300-305 | No rate has no average, one is its own, and twice the average of two is their sum. |
| ExchangeRates.MajorityBounds | btpay/bitcoin/exchange.py:295-322 | If more than half of the positive rates lie in an interval, the average lies in it widened by 5%, whatever the others say. |
| ExchangeRates.ExchangeRateService.DoFetch | btpay/bitcoin/exchange.py:100-144 | A fetch averages, per wanted currency, the admissible quotes of the sources that answered, and keeps the rates of the others. |
| ExchangeRates.FetchKeepsAdmissible | btpay/bitcoin/exchange.py:100-144 | Whatever the sources answer, every stored rate is within the bounds for single quotes. |
| Money.SatoshiRoundTrip | btpay/coinmath.py:10-16 | Satoshis to coins and back is the identity. |
| Money.CoinsRoundTrip | btpay/coinmath.py:10-20 | Coins to satoshis and back is the identity if and only if the amount is whole satoshis, as it is after rounding. |
| Money.RoundedExactly | btpay/coinmath.py:18-20 | Rounding gives an integer if and only if it is the nearest, or of two nearest the even one. |
| Money.CentsExactly | btpay/invoicing/service.py:203-229 | The same for cents. |
| Money.SatoshisExactly | btpay/coinmath.py:10-20 | A coin is a hundred million satoshis, and coins are rounded to the nearest satoshi. |
| Money.MarkedUp | btpay/invoicing/service.py:430-433 | A markup of so many percent raises the rate by so many hundredths of it. |
| Money.QuotePrice | btpay/invoicing/service.py:421-441 | A quote asks for coins worth the total to half a satoshi, and a payment credits what its satoshis are worth at the rate to half a cent. |
| Money.QuoteSound | btpay/invoicing/service.py:203-211 | Paying a quoted amount exactly credits the total within rate * 0.5e-8 + 0.005. |
| Money.QuoteCredits | btpay/invoicing/service.py:203-229 | Paying a quote exactly credits something if and only if the quoted coins are worth more than half a cent; for a total of at least a cent, if and only if the total exceeds rate * 0.5e-8. |
| Invoicing.RecalculateTotals | btpay/invoicing/models.py:105-118 | Totals are the sum of the rounded lines, rounded tax, less the discount, never negative. |
| Invoicing.SubtotalNearExact | btpay/invoicing/models.py:105-134 | Rounding the lines costs at most half a cent a line. |
| Invoicing.TaxNear | btpay/invoicing/models.py:105-118 | The tax is the rate's share of the subtotal to half a cent. |
| Invoicing.TotalNearExact | btpay/invoicing/models.py:105-118 | The total is the exact sum with tax less the discount, or nothing if that is negative, up to half a cent for the tax and the taxed half cents of the lines. |
| Invoicing.InvoiceService.CreditInvoice | btpay/invoicing/service.py:335-351 | Adds the credit; paid if the total is covered up to the gift, partial if something else is credited, unchanged otherwise. |
| Invoicing.InvoiceService.RecordPayment | btpay/invoicing/service.py:203-237 | Adds a payment of the satoshis at the locked rate, rounded to cents, and credits it. |
| Invoicing.InvoiceService.RecordFiatPayment | btpay/invoicing/service.py:250-278 | Adds a payment of the rounded fiat amount and credits it. |
| Invoicing.InvoiceService.ConfirmPayment | btpay/invoicing/service.py:280-296 | Confirms the payment, and the invoice if it is paid. |
| Invoicing.InvoiceService.CheckExpiry | btpay/invoicing/service.py:136-168 | Expires a pending or partial invoice with nothing paid once its quote has run out. |
| Invoicing.InvoiceService.LockBtcRate | btpay/invoicing/service.py:421-441 | Locks the marked-up rate, the quoted amount and the deadline, or raises without a rate. |
| Invoicing.LockedExactly | btpay/invoicing/service.py:421-441 | At a positive rate and a markup above -100 percent a quote is locked: the rate with its markup, the total at that rate to half a satoshi, and the deadline; nothing else changes. |
| Invoicing.QuoteLasts | btpay/invoicing/service.py:136-168 | A pending or partial invoice just quoted expires at a check if and only if the deadline has passed since and nothing is paid. |
| Invoicing.InvoiceService.RefreshBtcQuote | btpay/invoicing/service.py:170-188 | Locks a new quote on a pending or expired invoice and makes it pending. |
| Invoicing.InvoiceService.FinalizeInvoice | btpay/invoicing/service.py:100-134 | Takes a draft with a positive total to pending, assigning the next address and locking a quote if it is paid on chain; it raises without an address, a rate or the connectors' invoices, and then an assigned address stays assigned. |
| Invoicing.InvoiceService.CancelInvoice | btpay/invoicing/service.py:298-320 | Cancels draft and pending invoices only, and releases an assigned address that has seen no funds. |
| Invoicing.RecordedBalanced | btpay/invoicing/service.py:335-351 | Recording a payment on a payable invoice keeps the ledger balanced and the status moving forward. |
| Invoicing.ConfirmedBalanced | btpay/invoicing/service.py:280-296 | Confirming a payment keeps the ledger balanced and the status moving forward. |
| Invoicing.MarkupExactly | btpay/invoicing/service.py:430-435 | A positive rate stays not negative under a markup, or a discount, if and only if it is at least -100 percent; the setting is not checked. |
| Invoicing.RefreshBalanced | btpay/invoicing/service.py:170-188 | Refreshing keeps the ledger balanced if and only if the markup is at least -100 percent, and moves the status along the life cycle. |
| Invoicing.FinalizedBalanced | btpay/invoicing/service.py:100-134 | A finalized invoice is pending, and balanced if and only if it is not paid on chain or the markup is at least -100 percent. |
| Invoicing.RecordedExactly | btpay/invoicing/service.py:335-351 | Whatever the status, recording a payment keeps the ledger balanced if and only if there is something to pay, and moves the status along the life cycle if and only if the invoice is payable, or it is not confirmed and nothing is credited of a positive total; the service itself guards neither. |
| Invoicing.CreditUndoesConfirmed | btpay/invoicing/service.py:335-351 | An instance: crediting a confirmed invoice takes it back to paid. |
| Invoicing.QuoteSuffices | btpay/invoicing/service.py:203-229 | A pending invoice whose quote is paid exactly, at a rate whose rounding error is within the gift, becomes paid if the quoted coins are worth more than half a cent and stays pending otherwise; for a total of at least a cent, paid if and only if the total exceeds half a satoshi's worth. |
| Invoicing.AdmittedQuoteSuffices | btpay/invoicing/service.py:421-441 | At every rate the exchange service admits, with no markup and gift 5, one exact payment leaves an invoice of at least a cent paid if and only if its total exceeds rate * 0.5e-8, which is at most 2.50, and pending otherwise. |
| Invoicing.TinyQuoteStaysPending | btpay/invoicing/service.py:434-437 | An instance: a total of 2 at 500 million a bitcoin is quoted as nothing, and paying that leaves the invoice pending. |
| PaymentAutomation.FindPayment | btpay/payment_automation.py:165-178 | Looks up a payment by transaction id, else by address, else the latest of the method. |
| PaymentAutomation.FoundExactly | btpay/payment_automation.py:165-178 | Whatever it looks for, it finds a payment if and only if there is one of the method. |
| PaymentAutomation.FoundWhich | btpay/payment_automation.py:165-178 | Which payment is found: the first with the transaction id; if none has it, the last at the address; if none is there, the last of the method. |
| PaymentAutomation.HandleOnchainSeen | btpay/payment_automation.py:181-198 | Records the sighting on a payable invoice, unless it has a transaction id and a payment is found. |
| PaymentAutomation.HandleOnchainConfirmed | btpay/payment_automation.py:201-220 | Records a payment if there is none, then confirms it. |
| PaymentAutomation.HandleBtcPay | btpay/payment_automation.py:239-261 | Credits what is due once, and confirms when settled. |
| PaymentAutomation.HandleLnbits | btpay/payment_automation.py:280-296 | Credits what is due once, and confirms. |
| PaymentAutomation.HandleStablecoin | btpay/payment_automation.py:357-390 | Credits the received units once, and confirms. |
| PaymentAutomation.OnchainCredits | btpay/payment_automation.py:181-220 | A first sighting, or a confirmation without one, credits what the satoshis are worth at the locked rate to half a cent; a confirmation with a payment there credits nothing, whatever it reports. |
| PaymentAutomation.ReportPaysRest | btpay/payment_automation.py:239-296 | The first report of BTCPay or LNbits on a payable invoice, amounts in whole cents, leaves the amount paid at the larger of the total and what it was: paid while on its way, confirmed when settled, by one payment of the difference. |
| PaymentAutomation.ReportAgain | btpay/payment_automation.py:239-296 | A report for which there is a payment credits nothing. |
| PaymentAutomation.StableCredits | btpay/payment_automation.py:357-390 | The first payment of a token credits its units to half a cent, exactly if they are whole cents, and confirms the invoice if and only if that covers it. |
| PaymentAutomation.DistinctIds | btpay/payment_automation.py:239-390 | Different connector ids, and different received amounts of a token, are different transaction ids. |
| PaymentAutomation.CallbackKeeps | btpay/payment_automation.py:181-390 | Every callback keeps the ledger balanced and the status moving forward, and adds at most one payment, of its own method; none if there was one, a sighting without a transaction id excepted. |
| Monitor.RequiredConfirmations | btpay/bitcoin/monitor.py:270-283 | The first tier that applies decides, six if none does. |
| Monitor.DefaultsGraded | btpay/bitcoin/monitor.py:36-41 | The default tiers are graded. |
| Monitor.DefaultTiers | btpay/bitcoin/monitor.py:36-41 | By default one confirmation below a million satoshis, three below ten million, six from there on. |
| Monitor.PaymentMonitor.WatchAddress | btpay/bitcoin/monitor.py:74-78 | Puts the address on the watch list. |
| Monitor.RequiredMonotone | btpay/bitcoin/monitor.py:270-283 | With graded tiers more money never needs fewer confirmations. |
| Monitor.BitcoinAddress.MarkAssigned | btpay/bitcoin/models.py:119-123 | Marks the address assigned and records the invoice. |
| Monitor.BitcoinAddress.MarkSeen | btpay/bitcoin/models.py:125-130 | Marks the address seen with the amount. |
| Monitor.BitcoinAddress.MarkConfirmed | btpay/bitcoin/models.py:132-137 | Marks the address confirmed with the amount. |
| Monitor.PaymentMonitor.CheckAddress | btpay/bitcoin/monitor.py:119-141 | One poll: what it fires and how the address changes; confirmed addresses leave the watch list. |
| Monitor.PaymentMonitor.CheckFunds | btpay/bitcoin/monitor.py:143-231 | Both backends: first sighting, confirmation in the tier of the amount on record, later changes of the amount. |
| Monitor.PollExactly | btpay/bitcoin/monitor.py:119-231 | A poll that sees funds leaves the address confirmed, with the confirmed amount, if and only if the confirmations meet the tier of the amount on record, and otherwise seen with the whole amount; a first sighting reports the whole amount and its transaction, a confirmation the confirmed amount; without funds, or if asking raises later on, nothing changes. |
| Monitor.FiresOnce | btpay/bitcoin/monitor.py:143-231 | Over any run of polls an address moves only from assigned to seen to confirmed, and fires seen and then confirmed at most once each. |
| Monitor.ConfirmedMeetsTier | btpay/bitcoin/monitor.py:170-186 | Confirmed fires with the confirmed amount, and only with the confirmations that the amount on record takes. |
| Monitor.OwnTierExactly | btpay/bitcoin/monitor.py:170-186 | For any tiers, every confirmation fired, over all confirmation counts, is enough for the confirmed amount's own tier if and only if that tier asks no more than the tier of the amount on record. |
| Monitor.NoTopUpMeetsTier | btpay/bitcoin/monitor.py:170-186 | In graded tiers that is so whenever no more is confirmed than was on record. |
| Monitor.TopUpPassesLowTier | btpay/bitcoin/monitor.py:170-186 | An instance where it is not: half a bitcoin that arrives after the first sighting is confirmed with one confirmation. |
| PaymentRuns.RunKeeps | btpay/payment_automation.py:165-390 | Over every run of polls, callbacks, expiry checks, refreshes and cancellation, with any markup of at least -100 percent: the ledger stays balanced, each method has at most one payment, nothing credited is taken back, paid never falls back, confirmed and cancelled are final. |
| PaymentRuns.RunsKeepExactly | btpay/invoicing/service.py:26-34 | Every run keeps the invariant if and only if the markup is at least -100 percent or the invoice is neither pending nor expired. |
| PaymentRuns.StepKeeps | btpay/payment_automation.py:181-390 | One event takes nothing back, and keeps the invariant if and only if it locks no quote or the markup is at least -100 percent. |
| PaymentRuns.FinalizedStarts | btpay/invoicing/service.py:100-134 | A draft just finalized starts such a run, with a fresh address assigned if it is paid on chain and without one otherwise, if and only if it is not paid on chain or the markup is at least -100 percent. |
| PaymentRuns.Deliver | btpay/payment_automation.py:50-80 | The registered callbacks hand what the monitor fires, in order, to the handlers of the invoice that the address is assigned to, and to none otherwise. |
| PaymentRuns.Perform | btpay/payment_automation.py:50-390 | An event carried out on the objects, by the monitor, the handlers and the service, leaves invoice and address in the state of the run's step. |
| PaymentRuns.Play | btpay/payment_automation.py:50-390 | So any sequence of events leaves them where the run ends: what is proved of runs holds of the objects. |
| PaymentRuns.PollCredits | btpay/payment_automation.py:181-220 | The poll that first sees funds credits all of them, confirmed or not, at the locked rate to half a cent, while the address belongs to a payable invoice without an on-chain payment. |
| PaymentRuns.LaterPollCreditsNothing | btpay/payment_automation.py:201-220 | Whatever later polls find credits nothing, so what arrives on top is not credited. |
| PaymentRuns.PollUnassigned | btpay/payment_automation.py:181-206 | A poll of an address that no longer belongs to the invoice leaves the invoice alone. |
| Fulfillment.Shop.DecrementInventory | btpay/storefront/models.py:129-132 | Takes one unit from limited stock that has any. |
| Fulfillment.Shop.TakeUnits | btpay/storefront/fulfillment.py:60-66 | The per-unit loop takes the quantity one by one. |
| Fulfillment.Shop.TakeCart | btpay/storefront/fulfillment.py:58-66 | Takes every cart entry in order, and raises at the first that does not convert. |
| Fulfillment.Shop.FulfillStorefrontInvoice | btpay/storefront/fulfillment.py:14-78 | Counters first, then stock, then the flag; it does nothing for flagged invoices, other sources and missing storefronts. |
| Fulfillment.DecrementedByTakes | btpay/storefront/models.py:129-132 | The loop leaves max(0, stock - quantity) of limited stock, and unlimited stock as it is. |
| Fulfillment.CartTakes | btpay/storefront/fulfillment.py:58-66 | A cart raises if and only if an entry does not convert, and takes from each item what the entries before that ask of it in all. |
| Fulfillment.MarkedExactly | btpay/storefront/fulfillment.py:40-74 | Fulfilling counts an unmarked invoice once, and marks it if and only if all its metadata converts; otherwise it is counted again at the next credit. |
| Fulfillment.FulfilExactly | btpay/storefront/fulfillment.py:14-78 | Fulfilling acts if and only if a storefront of the shop sold the invoice and it is not marked; then that storefront alone is credited, every item loses what is asked of it, and the invoice is marked unless something raises. |
| Fulfillment.StartExplained | btpay/storefront/fulfillment.py:14-78 | Any invoices, in any shop, are where such a run starts. |
| Fulfillment.CreditExplained | btpay/invoicing/service.py:335-358 | One credit, whether it leaves the invoice paid or not, keeps that account. |
| Fulfillment.ExactlyOnce | btpay/storefront/fulfillment.py:14-78 | However many credits reach however many invoices, with whatever metadata: orders and revenue are those of the effective sales (the first that leaves an invoice paid, or any if its metadata raises), and stock is short by what these ask for, never below nothing. |
| Fulfillment.CountedExactly | btpay/storefront/fulfillment.py:14-78 | An invoice of a storefront is counted once if it is ever paid and its metadata converts, at every credit that leaves it paid if it does not convert, and never if it was marked or its storefront is gone. |
| RateLimit.RateLimiter.Check | btpay/security/rate_limit.py:26-49 | Prunes, refuses at the limit, records otherwise, and cleans up when due. |
| RateLimit.RateLimiter.RecordFailure | btpay/security/rate_limit.py:51-53 | Records an attempt without a limit. |
| RateLimit.RateLimiter.Remaining | btpay/security/rate_limit.py:55-64 | Prunes and tells how many attempts are left. |
| RateLimit.RemainingExactly | btpay/security/rate_limit.py:26-64 | What remaining answers is how many checks in a row are let through at that time: those, and no more. |
| RateLimit.RateLimiter.Reset | btpay/security/rate_limit.py:66-68 | Forgets the key. |
| RateLimit.RateLimiter.Cleanup | btpay/security/rate_limit.py:70-78 | Drops exactly the windows that are empty or older than an hour. |
| RateLimit.StepRefines | btpay/security/rate_limit.py:26-78 | Each call of a safe key answers as the unpruned history would, and calls of any key leave the windows of the safe ones what is left of their histories, if time does not run back. A key is safe if its window is at most an hour, or it may not act, or no other key may. |
| RateLimit.RunRefines | btpay/security/rate_limit.py:26-78 | Over every run, with any limits of the other keys, pruning and cleanup never change an answer to a safe key. |
| RateLimit.SlidingBound | btpay/security/rate_limit.py:26-49 | In every run, failures and resets included, from any limiter that agrees with some history: every closed interval as long as the window holds at most max checks of a safe key accepted since its last reset. |
| RateLimit.CleanupForgets | btpay/security/rate_limit.py:70-78 | For any other key there is a run in which the limiter lets through a check that the history forbids. |
| RateLimit.AgreesExactly | btpay/security/rate_limit.py:26-78 | So a fresh limiter answers a key as the history in every run if and only if the key is safe. |

## Left out

- HTTP, sockets and RPC (mempool.space, Electrum, EVM, BTCPay, LNbits, the rate sources): what they answer is a parameter of each step, Electrum's confirmation count included.
- Decimal's 28-digit context: amounts and rates are exact rationals, and only `quantize` rounds. Dividing a total by a rate is therefore exact before it is rounded to satoshis.
- SHA-256, RIPEMD-160 and HMAC-SHA512: arbitrary functions of the right result length, so nothing relies on collisions being hard to find.
- libsecp256k1: only the pure fallback of `_ec_point_add` is modelled.
- Parsing of extended keys and descriptors, and the script-pubkey builders.
- Case, whitespace and digits outside ASCII: `strip`, `lower` and `int` are modelled on ASCII text.
- Index objects inside the store are values, not objects shared by reference; the two index classes are proved on their own, against the same functions. Tuple keys (model, column) are nested maps.
- Order of query results: `filter` and `_execute` return tables, since the original iterates over sets; `order_by` and `_sort_results` are not modelled.
- Python's equality across types (`1 == True == 1.0`, decimals of different scale): column values are equal if they are the same value of the same type. Decimals and datetimes are identified with their text.
- Shared mutable values inside rows (the original copies rows shallowly), tuples and dicts with keys that are not strings, and sets of anything but strings.
- JSON text, files, fsync, backups and signal handlers: a file is a JSON tree.
- Persistence.LoadModel: a row that is a string, list or set raises here; the original stores it and raises only if the model has an index. A sequence that is no number leaves the one that the rows set; the original stores it as it is.
- Persistence.LoadFromDisk: the same two cases of malformed files.
- Threads, locks and stale instances: each handler, poll and store call is atomic and starts from the stored rows.
- Invoicing.InvoiceService.FinalizeInvoice: which address the wallet gives, and whether the connectors create their invoices, are parameters; what is locked on an invoice that is then not saved is what the instance in memory holds.
- Ledgers keep the columns that decide about money; customer data, notes and timestamps other than the quote's deadline are left out, and so are events, e-mails and webhooks.
- Handing out addresses: `Wallet.get_next_address` and the address pool; an invoice starts with its one assigned address.
- Which invoices the connectors watch, stablecoin baselines and conflicts: callbacks arrive in any order and number.
- RateLimit.SlidingBound: a key keeps its limit and window throughout a run; `record_failure` records without a limit, so failures themselves are not bounded.
- Argon2, JWT, NaCl, sessions, roles, views, templates, settings, slugs and the QR scanner.
