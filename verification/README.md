# Diners Direct host, host switch and offline-sale timer

This project models, in Dafny, the part of a payment terminal that talks to
card hosts:

- **The Diners Direct ISO 8583 message layer.** For every operation there is
  a builder: sale, refund, pre-authorisation, void, reversal, sale completion,
  offline sale, tip adjust, TC upload, batch upload, settlement, key (TMK)
  download and echo test. Each builder turns a Diners transaction into a
  request message (an MTI plus a map of fields) and records what it stamped,
  such as the processing code. Each operation also has a reader that
  validates the host's response against the request and copies the
  host-written fields back. Around them sit:
  - the field-format table of the protocol;
  - the processing-code, POS-entry-mode and condition-code tables;
  - the amount rules of the transaction record;
  - the wrapping `+=` of batch totals.
- **The Diners host (`DinersHost`).** It frames a message with its TPDU,
  waits for the connection, sends, receives, strips the TPDU and concludes
  with a status: completed, transient failure or permanent failure. It
  records every call it makes on its communication client.
- **The host switch (`HostSwitch`).** It binds to the configured host
  (FDMS/Base24, Amex Direct or Diners Direct) and dispatches each operation
  there. It converts the switch's transaction to the Diners record and back,
  and translates statuses. It uploads a batch item by item, stopping at the
  first item that does not complete.
- **The acquirer's offline-sale timer.** The timer saturates at 30. While
  the timer is expired, an offline sale needs the password, and a successful
  offline sale or a settlement resets the timer.

Message values are immutable datatypes, and builders and readers are pure
functions. `DinersHost`, `HostSwitch`, `Acquirer` and `BatchTotal` are
classes whose methods update their fields in place.

The communication client, the Amex and FDMS hosts, and the ISO 8583 byte
codec are not modelled as code. What they answer is a parameter of each
operation:
- a `Link` says what the client answers to wait, send and receive;
- `FdmsReply` and `AmexReply` are the foreign hosts' results;
- the byte encoder and decoder are given to the `DinersHost` constructor.

The clock (`time(0)`), the STAN and invoice counters, the operator's
password and the workflow prompts are parameters too.

## Model

| member | source | states |
|---|---|---|
| Text.ParseDecimalString | diners_host/Src/void_message.cpp:201-204 | the decimal text of an amount parses back to the same number |
| Text.DecimalStringLength | diners_host/Src/batch_upload_message.cpp:180-207 | a number below 10^k has at most k decimal digits |
| Text.RightAligned | diners_host/Src/void_message.cpp:201-210 | the result is the wider of the text and the width, ends with the text, and is filled on the left with the fill character |
| Text.ParseLeadingZeros | diners_host/Src/void_message.cpp:201-204 | leading zeros change neither digit-ness nor the parsed value |
| Text.PaddedRoundTrip | diners_host/Src/void_message.cpp:201-210 | a number below 10^width padded to width with zeros is exactly width digits and parses back to the number |
| Text.PaddedInjective | diners_host/Src/void_message.cpp:201-210 | two numbers that fit the width and have the same zero-padded text are equal |
| Text.HexDigitChar | diners_host/Src/diners_host.cpp:42-48 | the hex digit of a value below 16 decodes back to that value |
| Text.HexStringToBytes | diners_host/Src/diners_host.cpp:42-48 | a hex string decodes to half as many bytes as it has characters |
| Text.HexRoundTrip | diners_host/Src/diners_host.cpp:42-48 | decoding the hex text of any bytes gives back those bytes |
| Text.AsciiRoundTrip | diners_host/Src/settlement_message.cpp:117-132 | a text of byte-sized characters copied to bytes and read back as characters is unchanged |
| Iso.Uint32RoundTrip | diners_host/Src/sale_message.cpp:263-265 | a 32-bit number stored in a field is read back unchanged |
| Iso.PaddedFieldRoundTrip | diners_host/Src/sale_message.cpp:263-265 | a zero-padded numeric field that fits its width reads back as the number that was padded |
| DinersTransactions.NewDinersTransaction | diners_host/ExpInc/diners/diners_transaction.h:60-66 | a fresh record has STAN, NII, invoice number and date set to zero, no card, amounts or chip data, and no total amount |
| DinersTransactions.GetTotalOriginalAmount | diners_host/Src/diners_transaction.cpp:47-56 | present exactly when the amount is, and never below it |
| DinersTransactions.GetTotalPreauthAmount | diners_host/Src/diners_transaction.cpp:35-45 | present exactly when the pre-authorised amount is, and never below it |
| DinersTransactions.GetTotalAmount | diners_host/Src/diners_transaction.cpp:20-33 | absent exactly when both amounts are; with an amount it is the original total plus the tip; otherwise it is the pre-authorised total |
| DinersTransactions.TotalAmountSums | diners_host/Src/diners_transaction.cpp:20-33 | with an amount, the total is the original amount plus the tip when there is one |
| DinersTransactions.TotalAmountDominates | diners_host/Src/diners_transaction.cpp:20-56 | the total never falls below the original total; without an amount it is the pre-authorised total |
| DinersTransactions.AddWrapping | diners_host/ExpInc/diners/diners_transaction.h:128-131 | the unsigned sum wraps at the width: the sum when it fits, the sum less the width when it does not, always below the width |
| DinersTransactions.PlusCommutes | diners_host/ExpInc/diners/diners_transaction.h:128-131 | adding batch totals is commutative |
| DinersTransactions.PlusZero | diners_host/ExpInc/diners/diners_transaction.h:123-131 | the default batch total is the identity of `+=` |
| DinersTransactions.AddWrappingAssociates | diners_host/ExpInc/diners/diners_transaction.h:128-131 | wrapping addition is associative |
| DinersTransactions.PlusAssociates | diners_host/ExpInc/diners/diners_transaction.h:128-131 | adding batch totals is associative, so accumulation order does not matter |
| DinersTransactions.BatchTotal.constructor | diners_host/ExpInc/diners/diners_transaction.h:123-126 | the default total has count and total zero |
| DinersTransactions.BatchTotal.Of | diners_host/ExpInc/diners/diners_transaction.h:118-121 | the total holds the given count and total |
| DinersTransactions.BatchTotal.AddAssign | diners_host/ExpInc/diners/diners_transaction.h:128-131 | `+=` returns the receiver, whose value becomes the wrapping sum of both; the right-hand side is unchanged unless it is the receiver |
| DinersUtils.TransactionCode | diners_host/Src/diners_utils.cpp:20-49 | a two-digit code, or empty when a void is asked of a type with no void code |
| DinersUtils.GetDinersProcessingCode | diners_host/Src/diners_utils.cpp:20-49 | all digits and ends in "0000"; six digits, or four when the type has no void code and a void is asked |
| DinersUtils.VoidCodeDiffers | diners_host/Src/diners_utils.cpp:20-49 | a type's void code differs from its normal code |
| DinersUtils.ProcessingCodeTable | diners_host/Src/diners_utils.cpp:20-49 | the normal codes: 000000 for authorisation, sale, offline sale and completion; 200000 for refund; 300000 for pre-auth; 940000 for TC upload |
| DinersUtils.VoidProcessingCodeTable | diners_host/Src/diners_utils.cpp:20-49 | the void codes: 020000 for sale, offline sale and completion; 220000 for refund |
| DinersUtils.ProcessingCodeSeparatesClasses | diners_host/Src/diners_utils.cpp:20-49 | two types with the same normal code are equal or both in the sale class |
| DinersUtils.GetPosEntryMode | diners_host/Src/diners_utils.cpp:51-86 | three digits; the first is 8 or 9 exactly for the two fallbacks; the last is 1 exactly for chip or contactless, else 2 |
| DinersUtils.PosEntryModeTable | diners_host/Src/diners_utils.cpp:51-86 | the seven entry-mode codes, and different modes get different codes |
| DinersUtils.GetDinersConditionCode | diners_host/Src/diners_utils.cpp:88-97 | every condition is sent as "00" |
| DinersUtils.GetAmountRequired | diners_host/Src/diners_utils.cpp:99-106 | a normal transaction with an amount requires that amount plus its original tip and its tip, one without an amount its pre-authorised total; any other condition requires the pre-authorised amount |
| Protocol.FieldNumbers | diners_host/Src/protocol.cpp:26-63 | exactly the field numbers that occur in the table |
| Protocol.SpecOf | diners_host/Src/protocol.cpp:26-63 | the map of a table has the table's field numbers as keys |
| Protocol.SpecOfDistinct | diners_host/Src/protocol.cpp:26-63 | in a table without repeated field numbers, every entry is what the map gives for its field |
| Protocol.AscendingDistinct | diners_host/Src/protocol.cpp:26-63 | a table listed in ascending field order repeats no field |
| Protocol.AscendingFirst | diners_host/Src/protocol.cpp:26-63 | in an ascending table the first field is below every later one |
| Protocol.DinersTableDistinct | diners_host/Src/protocol.cpp:26-63 | the Diners table lists each field once |
| Protocol.GetProtocolSpec | diners_host/Src/protocol.cpp:67-69 | the spec has exactly the table's fields, each with its table format |
| Protocol.EntryAt | diners_host/Src/protocol.cpp:26-69 | a table entry is what the spec gives for its field |
| Protocol.NumericFieldFormats | diners_host/Src/protocol.cpp:26-63 | processing code, amount, STAN, entry mode, NII and condition code have their fixed numeric widths 6, 12, 6, 4, 4, 2 |
| Protocol.TextFieldFormats | diners_host/Src/protocol.cpp:26-63 | RRN, authorisation id (space-padded), response code, terminal id and merchant id have their fixed widths 12, 6, 2, 8, 15 |
| Protocol.PrivateFieldFormats | diners_host/Src/protocol.cpp:26-63 | tip amount, fields 60 and 62, and field 63 have their variable formats and maxima |
| Messages.EchoCorrelates | diners_host/Src/sale_message.cpp:232-253 | a response that echoes the request's correlation fields passes the reader's correlation check |
| Messages.EchoMatchesTerminal | diners_host/Src/batch_upload_message.cpp:87-103 | a response that repeats a request's processing code, NII and terminal id matches the values that request carries |
| Messages.VoidAmount | diners_host/Src/void_message.cpp:36-48 | a pre-auth or authorisation voids its pre-authorised total; any other approved transaction voids its full total, one still to be advised its original total, and one in any other status sends no amount |
| Messages.IccGuardAsWritten | diners_host/Src/sale_message.cpp:89 | the guard as written has no value for an absent chip record, and otherwise holds exactly when there is chip data |
| Messages.IccField | diners_host/Src/sale_message.cpp:89 | field 55 is sent exactly when a chip record is present and not empty, and carries that record |
| SaleMessage.BuildSaleRequest | diners_host/Src/sale_message.cpp:26-102 | MTI 200 with only sale fields, each field exactly the sale field of the recorded transaction; records the sale processing code and entry mode |
| SaleMessage.SaleRequestCarries | diners_host/Src/sale_message.cpp:26-102 | the request carries the processing code, STAN, NII and terminal id it records, the card number exactly when keyed in and present, the total amount exactly when there is one, and DE 55 exactly when there is non-empty chip data |
| SaleMessage.SaleRequestCarriesOptional | diners_host/Src/sale_message.cpp:26-102 | the expiry date exactly when keyed in and non-empty, and the PAN sequence number, track 2, CVV (DE 48) and PIN block each exactly when the record has it |
| SaleMessage.ReadSaleResponse | diners_host/Src/sale_message.cpp:104-130 | accepted exactly when valid and correlated; writes date, RRN, response code, and the authorisation id and chip response when sent |
| SaleMessage.SaleResponseToOwnRequest | diners_host/Src/sale_message.cpp:104-130 | a valid response echoing the built request is accepted |
| RefundMessage.BuildRefundRequest | diners_host/Src/refund_message.cpp:26-83 | MTI 200 with only refund fields, each exactly the refund field of the recorded transaction |
| RefundMessage.RefundRequestCarries | diners_host/Src/refund_message.cpp:26-83 | the refund request carries the correlation fields, the card number and expiry date exactly when keyed in and present, the total amount, and the PAN sequence number and track 2 each exactly when the record has it |
| RefundMessage.ReadRefundResponse | diners_host/Src/refund_message.cpp:85-107 | accepted exactly when valid and correlated, with the host-written fields copied |
| RefundMessage.RefundResponseToOwnRequest | diners_host/Src/refund_message.cpp:85-107 | a valid response echoing the built request is accepted |
| PreAuthMessage.BuildPreAuthRequest | diners_host/Src/preauth_message.cpp:26-102 | MTI 100 with only pre-auth fields, each exactly the pre-auth field of the recorded transaction |
| PreAuthMessage.PreAuthRequestCarries | diners_host/Src/preauth_message.cpp:26-102 | the pre-auth request carries the correlation fields, the card number exactly when keyed in and present, the pre-authorised total exactly when there is one, and DE 55 exactly when there is non-empty chip data |
| PreAuthMessage.PreAuthRequestCarriesOptional | diners_host/Src/preauth_message.cpp:26-102 | the expiry date exactly when keyed in and non-empty, and the PAN sequence number, track 2, CVV (DE 48) and PIN block each exactly when the record has it |
| PreAuthMessage.ReadPreAuthResponse | diners_host/Src/preauth_message.cpp:104-129 | accepted exactly when valid and correlated, with the host-written fields copied |
| PreAuthMessage.PreAuthResponseToOwnRequest | diners_host/Src/preauth_message.cpp:104-129 | a valid response echoing the built request is accepted |
| VoidMessage.BuildVoidRequest | diners_host/Src/void_message.cpp:27-104 | MTI 200 with only void fields, stamped with the current time; records the void processing code |
| VoidMessage.VoidRequestCarries | diners_host/Src/void_message.cpp:27-104 | the void request carries the correlation fields, DE 4 exactly when the void amount exists, and the tip (DE 54) and original total (DE 60) exactly for a transaction adjusted after approval |
| VoidMessage.VoidAmountSplitsIntoOriginalAndTip | diners_host/Src/void_message.cpp:36-96 | for an adjusted sale the voided amount is the original total plus the tip |
| VoidMessage.ReadVoidResponse | diners_host/Src/void_message.cpp:106-127 | accepted exactly when valid and correlated, with the host-written fields copied |
| VoidMessage.VoidResponseToOwnRequest | diners_host/Src/void_message.cpp:106-127 | a valid response echoing the built request is accepted |
| ReversalMessage.BuildReversalRequest | diners_host/Src/reversal_message.cpp:26-117 | MTI 400 with only reversal fields; records the processing code of the reversed operation, void or not |
| ReversalMessage.ReversalRequestCarries | diners_host/Src/reversal_message.cpp:26-117 | the reversal request carries the correlation fields, the original time and date, DE 4 exactly when the void amount exists, and DE 55 exactly when there is non-empty chip data |
| ReversalMessage.ReversalRequestCarriesOptional | diners_host/Src/reversal_message.cpp:26-117 | the card number, PAN sequence number and PIN block exactly when present, and the expiry date and RRN exactly when non-empty |
| ReversalMessage.ReversalRequestCarriesAdjustment | diners_host/Src/reversal_message.cpp:92-112 | the tip (DE 54) and original total (DE 60) exactly for a transaction adjusted after approval |
| ReversalMessage.ReadReversalResponse | diners_host/Src/reversal_message.cpp:119-142 | accepted exactly when valid and correlated, with the host-written fields copied |
| ReversalMessage.ReversalResponseToOwnRequest | diners_host/Src/reversal_message.cpp:119-142 | a valid response echoing the built request is accepted |
| SaleCompletionMessage.BuildSaleCompletionRequest | diners_host/Src/sale_completion_message.cpp:26-90 | MTI 220 with only completion fields, each exactly the completion field of the recorded transaction |
| SaleCompletionMessage.SaleCompletionRequestCarries | diners_host/Src/sale_completion_message.cpp:26-90 | the completion carries the correlation fields, the total amount exactly when there is one, and the stored authorisation id and response code |
| SaleCompletionMessage.SaleCompletionRequestCarriesOptional | diners_host/Src/sale_completion_message.cpp:26-90 | the card number and PAN sequence number exactly when present, and the stored RRN |
| SaleCompletionMessage.ReadSaleCompletionResponse | diners_host/Src/sale_completion_message.cpp:92-113 | accepted exactly when valid and correlated, with the host-written fields copied |
| SaleCompletionMessage.SaleCompletionResponseToOwnRequest | diners_host/Src/sale_completion_message.cpp:92-113 | a valid response echoing the built request is accepted |
| OfflineSaleMessage.BuildOfflineSaleRequest | diners_host/Src/offline_sale_message.cpp:26-89 | MTI 220 with only offline-sale fields, each exactly the offline-sale field of the recorded transaction |
| OfflineSaleMessage.OfflineSaleRequestCarries | diners_host/Src/offline_sale_message.cpp:26-89 | the advice carries the correlation fields and the total amount, and the RRN and response code exactly for a sale completion |
| OfflineSaleMessage.OfflineSaleRequestCarriesOptional | diners_host/Src/offline_sale_message.cpp:26-89 | the card number and the stored authorisation id, and the PAN sequence number exactly when present |
| OfflineSaleMessage.ReadOfflineSaleResponse | diners_host/Src/offline_sale_message.cpp:91-108 | accepted exactly when valid and correlated; writes RRN and response code |
| OfflineSaleMessage.OfflineSaleResponseToOwnRequest | diners_host/Src/offline_sale_message.cpp:91-108 | a valid response echoing the built request is accepted |
| TipAdjustMessage.BuildTipAdjustRequest | diners_host/Src/tip_adjust_message.cpp:28-98 | MTI 220 with only tip-adjust fields, stamped with the current time; records the tip-adjust processing code |
| TipAdjustMessage.TipAdjustRequestCarries | diners_host/Src/tip_adjust_message.cpp:28-98 | the tip-adjust request carries the correlation fields, the total amount exactly when there is one, the tip exactly when there is one, and the original total exactly when there is an amount |
| TipAdjustMessage.ReadTipAdjustResponse | diners_host/Src/tip_adjust_message.cpp:100-123 | accepted exactly when valid and correlated; writes the response code and the echoed original amount |
| TipAdjustMessage.TipAdjustResponseToOwnRequest | diners_host/Src/tip_adjust_message.cpp:100-123 | a valid response echoing the built request is accepted |
| TipAdjustMessage.TipAdjustEchoedOriginalAmount | diners_host/Src/tip_adjust_message.cpp:87-123 | when the host echoes field 60, the amount read back is the original total that was sent |
| TcUploadMessage.BuildTcUploadRequest | diners_host/Src/tc_upload_message.cpp:30-86 | MTI 320 with only TC-upload fields; records the TC-upload processing code |
| TcUploadMessage.TcUploadRequestCarries | diners_host/Src/tc_upload_message.cpp:30-86 | the TC-upload request carries the correlation fields, DE 55 exactly when there is non-empty chip data, and the stored response code |
| TcUploadMessage.TcUploadRequestCarriesOptional | diners_host/Src/tc_upload_message.cpp:30-86 | the card number and stored RRN, and the total amount and PAN sequence number exactly when present |
| TcUploadMessage.ReadTcUploadResponse | diners_host/Src/tc_upload_message.cpp:88-102 | accepted exactly when valid and correlated, with the host-written fields copied |
| TcUploadMessage.TcUploadResponseToOwnRequest | diners_host/Src/tc_upload_message.cpp:88-102 | a valid response echoing the built request is accepted |
| BatchUploadMessage.Field60 | diners_host/Src/batch_upload_message.cpp:180-207 | empty exactly for a type without an original MTI; otherwise starts with that MTI |
| BatchUploadMessage.Field60RoundTrip | diners_host/Src/batch_upload_message.cpp:180-207 | field 60 is 22 characters and its characters 4 to 9 parse back to the original STAN |
| BatchUploadMessage.Field60Stan | diners_host/Src/batch_upload_message.cpp:180-207 | characters 4 to 9 of field 60 are the six-digit zero-padded STAN |
| BatchUploadMessage.Field60Layout | diners_host/Src/batch_upload_message.cpp:180-207 | MTI, padded STAN and reserved data make 22 characters, with the STAN at 4 to 9 |
| BatchUploadMessage.BatchUploadAmount | diners_host/Src/batch_upload_message.cpp:36-44 | a pre-auth or authorisation uploads its pre-authorised total; others upload their total amount |
| BatchUploadMessage.BuildBatchUploadRequest | diners_host/Src/batch_upload_message.cpp:26-85 | MTI 320 with only batch-upload fields, using the batch-upload STAN; records the normal processing code |
| BatchUploadMessage.BatchUploadRequestCarries | diners_host/Src/batch_upload_message.cpp:26-85 | the batch-upload request carries its processing code, the batch-upload STAN, NII, terminal id, and DE 60 holding the original message type and the transaction's own STAN |
| BatchUploadMessage.BatchUploadRequestCarriesOptional | diners_host/Src/batch_upload_message.cpp:26-85 | the card number, stored RRN and authorisation id, and DE 4 exactly when the upload amount exists |
| BatchUploadMessage.BatchUploadResponseToOwnRequest | diners_host/Src/batch_upload_message.cpp:87-103 | an approved valid response echoing the terminal fields is accepted |
| SettlementMessage.SettlementProcessingCode | diners_host/Src/settlement_message.cpp:84-93 | 920000, or 960000 after a batch upload |
| SettlementMessage.BatchTotalRoundTrip | diners_host/Src/settlement_message.cpp:117-132 | counts and totals that fit are laid out at fixed offsets of field 63 and parse back |
| SettlementMessage.Layout | diners_host/Src/settlement_message.cpp:117-132 | the five parts of the totals text sit at offsets 0, 3, 15, 18 and 30 of a 90-character text |
| SettlementMessage.BuildSettlementRequest | diners_host/Src/settlement_message.cpp:26-53 | MTI 500 with exactly the settlement fields: processing code, STAN, NII, ids, padded batch number and the totals as bytes |
| SettlementMessage.ReadSettlementResponse | diners_host/Src/settlement_message.cpp:55-77 | accepted exactly when valid and its processing code, NII, terminal id and STAN are those of the settlement; writes date, RRN and response code |
| SettlementMessage.SettlementResponseToOwnRequest | diners_host/Src/settlement_message.cpp:145-164 | a valid response echoing the built request is accepted |
| SettlementMessage.EchoedField | diners_host/Src/settlement_message.cpp:145-164 | a field the response echoes carries the request's value |
| KeyDownloadMessage.BuildKeyDownloadRequest | diners_host/Src/key_download_message.cpp:30-48 | MTI 800 with exactly processing code 920000, NII, terminal id and merchant id |
| KeyDownloadMessage.EncryptedTmkAsWritten | diners_host/Src/key_download_message.cpp:157-161 | the slice as written reads outside field 62 exactly when the field is shorter than the key's end |
| KeyDownloadMessage.ShortField62OverrunsKey | diners_host/Src/key_download_message.cpp:157-161 | a response that passes validation with a two-byte field 62 makes the slice read past the field |
| KeyDownloadMessage.EncryptedTmk | diners_host/Src/key_download_message.cpp:157-161 | the key is present exactly when field 62 is long enough, and is 16 bytes |
| KeyDownloadMessage.EncryptedTmkAgreesInBounds | diners_host/Src/key_download_message.cpp:157-161 | the checked slice and the slice as written agree whenever the field is long enough |
| KeyDownloadMessage.ReadKeyDownloadResponse | diners_host/Src/key_download_message.cpp:50-71 | accepted exactly when valid, approved, and its processing code, NII and terminal id are those of the transaction, whatever field 62 holds; writes the host date and response code 00 |
| KeyDownloadMessage.KeyDownloadResponseToOwnRequest | diners_host/Src/key_download_message.cpp:50-71 | an approved response echoing the request is accepted exactly when the caller's record already holds 920000 |
| TestTransactionMessage.BuildEchoTestRequest | diners_host/Src/test_transaction_message.cpp:31-49 | MTI 800 with exactly processing code, NII, terminal id and merchant id |
| TestTransactionMessage.ReadEchoTestResponse | diners_host/Src/test_transaction_message.cpp:51-62 | accepted exactly when valid and its processing code, NII and terminal id are those of the test transaction; records the host date |
| TestTransactionMessage.EchoTestResponseToOwnRequest | diners_host/Src/test_transaction_message.cpp:98-115 | a valid response echoing the request's terminal fields is accepted |
| Diners.AddTpdu | diners_host/Src/diners_host.cpp:42-48 | the frame is the decoded TPDU followed by the message |
| Diners.StripAddedTpdu | diners_host/Src/diners_host.cpp:42-48 | dropping a TPDU's worth of bytes from a frame gives back the message |
| Diners.TransportDelivers | diners_host/Src/diners_host.cpp:173-191 | a payload arrives exactly when connect, full send and receive succeed; it is what follows the TPDU |
| Diners.FailureDisconnects | diners_host/Src/diners_host.cpp:124-191 | a failed exchange ends with a disconnect, and a delivered one never disconnects |
| Diners.SendOnlyWhenConnected | diners_host/Src/diners_host.cpp:113-191 | the exchange first waits 30000 ms; it sends only the frame and only when connected; it receives only after a full send |
| Diners.ConcludeStatus | diners_host/Src/diners_host.cpp:173-191 | transient failure exactly when nothing arrived; permanent when the reader rejects; completed with the reader's record otherwise |
| Diners.BuiltKeepsResponseFields | diners_host/Src/diners_host.cpp:51-103 | a builder changes only the processing code and original entry mode of the record |
| Diners.BatchUploadCheck | diners_host/Src/batch_upload_message.cpp:87-103 | accepts exactly when the response is valid, repeats the processing code, NII and terminal id, and approves with 00; the record is left as it is |
| Diners.DinersHost.constructor | diners_host/ExpInc/diners/diners_host.h:41-44 | a fresh host has no host name and no calls |
| Diners.DinersHost.FailedOperationKeepsRecord | diners_host/Src/diners_host.cpp:173-191 | an operation that does not complete leaves every response field of the record as the caller had it |
| Diners.DinersHost.PreConnect | diners_host/Src/diners_host.cpp:105-111 | true exactly when the client answers OK; records the host name and the call |
| Diners.DinersHost.WaitForConnection | diners_host/Src/diners_host.cpp:113-115 | true exactly when the client reports connected; records the wait |
| Diners.DinersHost.Disconnect | diners_host/Src/diners_host.cpp:117-122 | true exactly when the client answers OK; records the disconnect |
| Diners.DinersHost.SendMessage | diners_host/Src/diners_host.cpp:124-145 | completed exactly when the client accepts the whole frame, else transient failure; records the framed send |
| Diners.DinersHost.ReceiveMessage | diners_host/Src/diners_host.cpp:147-165 | completed exactly when at least a TPDU arrives, returning what follows it; else transient failure |
| Diners.DinersHost.PerformOnline | diners_host/Src/diners_host.cpp:168-191 | the calls and the status and record are those of one exchange of the request |
| Diners.DinersHost.AuthorizeSale | diners_host/Src/diners_host.cpp:51-53 | one exchange of the built sale request, read by the sale reader |
| Diners.DinersHost.PerformVoid | diners_host/Src/diners_host.cpp:55-57 | one exchange of the built void request, read by the void reader |
| Diners.DinersHost.PerformTcUpload | diners_host/Src/diners_host.cpp:59-61 | one exchange of the built TC-upload request, read by its reader |
| Diners.DinersHost.PerformTmkDownload | diners_host/Src/diners_host.cpp:63-65 | one exchange of the key-download request, read by its reader |
| Diners.DinersHost.AuthorizeRefund | diners_host/Src/diners_host.cpp:67-69 | one exchange of the built refund request, read by the refund reader |
| Diners.DinersHost.AuthorizePreAuth | diners_host/Src/diners_host.cpp:71-73 | one exchange of the built pre-auth request, read by its reader |
| Diners.DinersHost.SendTipAdjust | diners_host/Src/diners_host.cpp:75-77 | one exchange of the built tip-adjust request, read by its reader |
| Diners.DinersHost.SendReversal | diners_host/Src/diners_host.cpp:79-81 | one exchange of the built reversal request, read by its reader |
| Diners.DinersHost.SendOfflineSale | diners_host/Src/diners_host.cpp:83-85 | one exchange of the built offline-sale request, read by its reader |
| Diners.DinersHost.PerformSaleCompletion | diners_host/Src/diners_host.cpp:87-89 | one exchange of the built completion request, read by its reader |
| Diners.DinersHost.PerformDinersTestTransaction | diners_host/Src/diners_host.cpp:91-93 | one exchange of the echo-test request, read by its reader |
| Diners.DinersHost.PerformSettlement | diners_host/Src/diners_host.cpp:95-98 | one exchange of the built settlement request, read by the settlement reader |
| Diners.DinersHost.PerformBatchUpload | diners_host/Src/diners_host.cpp:100-103 | one exchange of the built batch-upload request, accepted only when approved |
| Diners.DinersHost.Perform | diners_host/Src/diners_host.cpp:51-93 | any transaction operation is one exchange of its built request, with the outcome of that operation |
| HostSwitches.ConvertStatus | host_switch.cpp:27-35 | completed and transient map to themselves; everything else is a permanent failure |
| HostSwitches.ConvertAmexStatus | host_switch.cpp:37-45 | completed and transient map to themselves; everything else is a permanent failure |
| HostSwitches.ConvertDinersStatus | host_switch.cpp:163-171 | each Diners status maps to the same switch status |
| HostSwitches.ConvertTxToDinersTxType | host_switch.cpp:173-202 | refund, pre-auth, authorisation and offline sale map to themselves; sale, online completion and others map to sale; offline completion has no Diners type |
| HostSwitches.ConvertTxToDinersTxStatus | host_switch.cpp:204-234 | in progress, approved, not allowed and to-advise map to themselves; every other status maps to declined |
| HostSwitches.ConvertTxToDinersInProgressStatus | host_switch.cpp:236-257 | void maps to void, pre-auth completion to sale completion, everything else to none |
| HostSwitches.BuildDinersTransactionFromTransaction | host_switch.cpp:259-319 | the record copies the card, amounts, chip data and response fields, converts type and status, and has a PIN block exactly when there is PIN data |
| HostSwitches.FillTransactionWithDinersTransactionData | host_switch.cpp:352-359 | copies back exactly the six response fields and nothing else |
| HostSwitches.FillAfterBuildRestores | host_switch.cpp:259-359 | converting to a Diners record and copying its fields back gives the transaction unchanged |
| HostSwitches.NoIccDataReachesIccGuard | host_switch.cpp:259-319 | a transaction without chip data reaches the builders' chip guard with no chip record, where the corrected field is absent |
| HostSwitches.FillTransactionWithAmexTransactionData | host_switch.cpp:153-161 | copies back exactly the six Amex response fields and nothing else |
| HostSwitches.BuildDinersSettlementData | host_switch.cpp:321-340 | copies the settlement fields and batch totals, takes the next invoice number, and starts with no processing or response code |
| HostSwitches.FillSettlementDataWithDinersSettlementData | host_switch.cpp:342-350 | copies back the seven host-written fields and keeps the rest |
| HostSwitches.FillSettlementDataWithAmexSettlementData | host_switch.cpp:143-151 | copies back the seven Amex-written fields and keeps the rest |
| HostSwitches.Attempts | host_switch.cpp:473-520 | the uploads stop at the first item that does not complete, or after the last |
| HostSwitches.AttemptsUnique | host_switch.cpp:473-520 | the stopping point is the only one with that property |
| HostSwitches.AllCompletedIff | host_switch.cpp:473-520 | the last attempted upload completed exactly when every item completed |
| HostSwitches.DinersOperationOf | host_switch.cpp:438-620 | the DCC and quasi-cash sales run the sale; the DCC offline sales run the offline sale; the DCC pre-auths run the pre-auth; every completion variant runs the sale completion |
| HostSwitches.TranslateBatch | host_switch.cpp:508-520 | the Diners records of the batch, one per transaction, in order, whatever card data they hold |
| HostSwitches.FirstFailureReachesOnlyFirst | host_switch.cpp:508-520 | when the first upload fails, only the first record needs a card number; the rest are never sent |
| HostSwitches.AllCardedReached | host_switch.cpp:508-520 | a batch whose records all have a card number can be sent whatever the uploads answer |
| HostSwitches.ReachedCardedWhileCompleted | host_switch.cpp:508-520 | the records the batch upload sends are exactly those reached after only completed uploads, so each of them has a card number |
| HostSwitches.HostSwitch.constructor | host_switch.cpp:363-381 | a fresh switch is bound to no host |
| HostSwitches.HostSwitch.UnboundFailsClosed | host_switch.cpp:384-417 | with no host bound an operation fails permanently and leaves the transaction alone |
| HostSwitches.HostSwitch.DinersPathWritesSixFields | host_switch.cpp:384-417 | on the Diners path only the six response fields can change; without completion only the processing code can |
| HostSwitches.HostSwitch.PreConnect | host_switch.cpp:419-436 | an unknown host index fails and keeps the binding; otherwise binds to the configured protocol and answers as that host does |
| HostSwitches.HostSwitch.WaitForConnection | host_switch.cpp:705-721 | fails when unbound; otherwise the bound host's answer; a failure unbinds |
| HostSwitches.HostSwitch.Disconnect | host_switch.cpp:723-737 | succeeds when unbound, otherwise the bound host's answer; always unbinds; only the Diners path records a disconnect |
| HostSwitches.HostSwitch.PerformActionWithTx | host_switch.cpp:384-417 | the status and transaction are the bound host's outcome; an unknown protocol unbinds |
| HostSwitches.HostSwitch.Perform | host_switch.cpp:438-620 | each switch operation gives the outcome of its Diners operation or of the foreign host; on the Diners path the client calls are one exchange of that operation's request, otherwise none |
| HostSwitches.HostSwitch.PerformFdmsOnly | host_switch.cpp:585-592 | an FDMS-only operation is the FDMS answer when bound to FDMS, else a permanent failure |
| HostSwitches.HostSwitch.DinersSettlementRecordsProcessingCode | host_switch.cpp:657-682 | a Diners settlement records the settlement processing code whatever the host answers |
| HostSwitches.HostSwitch.PerformSettlement | host_switch.cpp:657-682 | settles with the bound host and copies its fields back; fails permanently when unbound; on the Diners path the client calls are one exchange of the settlement request, otherwise none |
| HostSwitches.HostSwitch.DinersTestTransaction | host_switch.cpp:684-703 | the Diners echo test uses processing code 990000 and the terminal's TPDU, NII and ids |
| HostSwitches.HostSwitch.PerformFdmsTestTransaction | host_switch.cpp:684-703 | the FDMS answer, the Diners echo test, or a permanent failure, by the bound host; on the Diners path the client calls are one exchange of the echo-test request, otherwise none |
| HostSwitches.HostSwitch.UploadItem | host_switch.cpp:508-520 | one item's upload, of a record with a card number, gives its status and its calls |
| HostSwitches.HostSwitch.UploadBatch | host_switch.cpp:508-520 | uploads until the first failure; the status is the last attempt's; the calls are those of the attempts, in order; only the records attempted need a card number |
| HostSwitches.HostSwitch.PerformDinersBatchUpload | host_switch.cpp:508-520 | the Diners batch upload of the translated batch, for any batch whose attempted records have a card number |
| HostSwitches.HostSwitch.PerformAmexBatchUpload | host_switch.cpp:473-487 | the Amex uploads stop at the first failure, and the status is the last attempt's, converted |
| HostSwitches.HostSwitch.PerformBatchUpload | host_switch.cpp:489-506 | dispatches the batch upload to the bound host; fails permanently when unbound; on the Diners path the status is the last attempt's and the client calls are those of the attempted uploads, in order, otherwise none |
| Acquirers.NextTimer | Src/acquirer.cpp:382-388 | the timer goes up by one when offline sales are enabled and it is below 30, and otherwise stays |
| Acquirers.TicksSaturate | Src/acquirer.cpp:382-388 | after k ticks the timer is the smaller of its start plus k and 30 |
| Acquirers.PasswordAgainAfterReset | Src/acquirer.cpp:382-392 | after a reset, the password is needed again exactly from the 29th tick |
| Acquirers.Acquirer.constructor | Src/acquirer.cpp:50-70 | the timer starts expired, at 30 |
| Acquirers.Acquirer.IncrementOfflineSaleTimer | Src/acquirer.cpp:382-388 | the timer takes one tick and stays within 1 to 30 |
| Acquirers.Acquirer.ResetOfflineSaleTimer | Src/acquirer.cpp:390-392 | the timer becomes 1 |
| Acquirers.Acquirer.StartOfflineSale | Src/acquirer.cpp:249-259 | refused and unchanged only when the timer has expired and the password fails; otherwise the timer resets |
| Acquirers.Acquirer.StartSettlement | Src/acquirer.cpp:177-193 | from the POS, the POS result with the timer kept; otherwise it returns true, and the timer is set to 30 exactly when the password passes and the workflow runs |
| Acquirers.Acquirer.StartTipAdjust | Src/acquirer.cpp:169-175 | starts exactly when the password passes |

## Left out

- The communication client is not code here. What it answers to connect, wait, send and receive is a parameter (`CommsStatus`, `Link`), and every call the host makes is recorded in `calls`.
- The ISO 8583 byte encoder and decoder are functions given to the `DinersHost` constructor. The model states what is sent and read in terms of message values, not bytes.
- The Amex and FDMS hosts are not modelled: their answers (`FdmsReply`, `AmexReply`, the reply sequences of a batch) are parameters. For the same reason `ConvertTxToAmexTxType`, `BuildAmexTransactionFromTransaction` and `BuildAmexSettlementData` are left out.
- The lazy creation of host clients in `GetAmexHost` and `GetDinersHost` is left out. The Diners host is a field of the switch from the start.
- `isAmex` is left out. It is a query with no effect on dispatch.
- The FDMS-only operations all share the behaviour of `PerformFdmsOnly`: the TMK download, pre-auth cancellation, instalment sale, key exchange and FDMS settlement.
- The clock `time(0)` is the `now` parameter. `GetNextStanNo` and `GetNextInvoiceNo` are the parameters `stans` and `invoiceNo`.
- Logging is left out.
- Date and time formatting of the ISO 8583 date and time fields is left out. The host date is read back as an opaque `Datetime`.
- HostSwitches.ConvertTxToDinersTxType: the source's switch names `PREAUTH_COMPLETION_OFFLINE`, which has no Diners type. The model makes it `None`, and the switch only dispatches transactions with a Diners type.
- HostSwitches.HostSwitch.PerformAmexBatchUpload: requires a non-empty batch. With an empty batch the source returns a status variable it never set.
- HostSwitches.HostSwitch.UploadBatch: requires a non-empty batch, for the same reason.
- HostSwitches.HostSwitch.PerformDinersBatchUpload: requires a card number on every record the upload reaches, up to and including the first that does not complete, because the batch upload message dereferences `pan` unchecked (batch_upload_message.cpp:31). The host switch does not check this; records after the stop are unconstrained. `HostSwitches.HostSwitch.PerformBatchUpload` inherits the requirement on its Diners path.
- VoidMessage.CanBuildVoid: the void request dereferences `pan` (void_message.cpp:31), and for a transaction adjusted after approval `additional_amount` and the original total (89, 95), all unchecked. The builders and `Diners.DinersHost.PerformVoid` require them, and the host switch does not guarantee them.
- ReversalMessage.CanBuildReversal: the reversal request dereferences the tip and the original total of a transaction adjusted after approval unchecked (reversal_message.cpp:98, 108). The builders and `Diners.DinersHost.SendReversal` require them.
- OfflineSaleMessage.CanBuildOfflineSale: the offline sale advice dereferences `pan` and the total amount unchecked (offline_sale_message.cpp:30, 36). The builders and `Diners.DinersHost.SendOfflineSale` require them.
- TipAdjustMessage.BuildTipAdjustRequest: requires a card number, which the request dereferences unchecked (tip_adjust_message.cpp:32).
- TcUploadMessage.BuildTcUploadRequest: requires a card number, which the request dereferences unchecked (tc_upload_message.cpp:33).
- BatchUploadMessage.BuildBatchUploadRequest: requires a card number, which the request dereferences unchecked (batch_upload_message.cpp:31).
- DinersUtils.GetAmountRequired: requires the total amount under the normal condition and the pre-authorised amount otherwise, which the source dereferences unchecked (diners_utils.cpp:102, 104).
- HostSwitches.DinersReady: the switch's Diners operations require, of the converted record, what the Diners builder dereferences (`Diners.CanPerform`). The switch passes the transaction on without checking, so these are undefined behaviour in the source, not an error path.
- KeyDownloadMessage.ReadKeyDownloadResponse: the key-download builder does not record its processing code in the transaction. The reader compares the response with the caller's processing code, and the model keeps that as written.
- SaleCompletionMessage.ReadSaleCompletionResponse: the reader accepts response MTI 210 to a 220 request, as written.
- Acquirers.Acquirer.StartOfflineSale: the password prompt and the offline-sale workflow are a boolean parameter. The other `Start*` workflows of the acquirer do not touch the timer and are left out.
- Acquirers.Acquirer.StartSettlement: the settlement workflow and the POS-triggered path are boolean parameters.
- Only the Diners-relevant members of the acquirer are modelled: its timer and the three starts that read the password.
- Integer widths are explicit only where the source wraps: batch totals at 32 and 64 bits, and STANs and counts as `uint32`. Amounts are unbounded naturals.

## Findings

| source | as written | input that shows it | evidently intended | confidence | as-written member | corrected member |
|---|---|---|---|---|---|---|
| diners_host/Src/sale_message.cpp:89 | the chip-data guard calls `icc_data->empty()` on an optional without checking that it holds a value; so do preauth_message.cpp:89, reversal_message.cpp:101 and tc_upload_message.cpp:77 | a transaction with no chip record (a magnetic-stripe sale), whose `iccData` is absent | set field 55 only when the optional holds non-empty chip data | not executed | HostSwitches.NoIccDataReachesIccGuard | Messages.IccField |
| diners_host/Src/key_download_message.cpp:157-161 | the encrypted TMK is copied from a fixed range of field 62 without checking the field's length, and validation does not check it either | a valid 810 response whose field 62 is two bytes long | take the key only when field 62 holds all 18 bytes; the reader, which drops the key, accepts the response either way | not executed | KeyDownloadMessage.ShortField62OverrunsKey | KeyDownloadMessage.EncryptedTmk |
