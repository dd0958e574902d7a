/**
 * Protocol constants of the ARX control unit.
 *
 * The first group has the values of ARXControl/const.py. The command and reply
 * codes of the second and third groups are referenced by the client and the
 * simulated control unit but defined nowhere in the repository: the values
 * below are placeholders, chosen pairwise distinct and disjoint from the first
 * group. No proof depends on their values beyond their distinctness.
 */
module Codes {
  // Communication codes and limits.
  const kCommErr: int := 0
  const kAck: int := 1
  const kReady: int := 2
  const kErr: int := 3
  const CheckReady: int := 4
  const ReadState: int := 5
  const WriteState: int := 6
  const StartByte: int := 255
  const MaxRetries: nat := 3
  const FrameSize: nat := 4

  // Command codes (placeholders).
  const AcuReady: int := 10
  const FeeRead: int := 11
  const FeeWrite: int := 12
  const FilterRead: int := 13
  const FilterWrite: int := 14
  const AttenRead: int := 15
  const AttenWrite: int := 16
  const EepromRead: int := 17
  const EepromWrite: int := 18
  const RoachWrite: int := 19
  const FlashWrite: int := 20

  // Reply payload codes (placeholders).
  const ReadyRsp: int := 30
  const FeeWritten: int := 31
  const FeeRange: int := 32
  const DataParseFail: int := 33
  const FilterWritten: int := 34
  const FilterRange: int := 35
  const AttenWritten: int := 36
  const EepromWritten: int := 37
  const EepromRange: int := 38
  const RoachWritten: int := 39
}
