# Fibonacci and pinball cores of a four-process simulation program

The program forks four child processes that each run one simulation, then
waits for all four. This project models the two parts of it that are exact,
sequential logic:

- **`fibNum`**, the naive recursive Fibonacci function of the first process
  (module `Fibonacci`, `fibonacci.dfy`). Every `n <= 2` is a base case worth 1,
  and that includes zero and negative `n`.
- **The pinball histogram** of the fourth process (module `Pinball`,
  `pinball.dfy`). It zeroes `x` buckets and drops `y` balls. Each ball falls
  through `x - 1` peg levels, moving half a bucket left or right at each one,
  and lands in bucket `(int)pos - 1`. The process then finds the fullest
  bucket and scales each bucket's bar to at most 50 stars.

The pinball's random draws (`rand() / RAND_MAX > 0.5`) are a parameter:
`walks[i]` lists ball `i`'s draws, one per level, and `true` means a step to
the right. The position always sits on a multiple of one half, so `Walk`
tracks twice the position as an integer, and the walk is exact. The bucket
array is a local `array<int>`. The methods fill it in place with the same
loops as the source and are proved against the specification functions
`Tally` (the counts after a sequence of drops), `Hits` (how many walks land
in a bucket) and `StarCount` (a bar's length).

## Model

| member | source | states |
|---|---|---|
| `Fibonacci.FibNum` | test.c:154-159 | fibNum's result is at least 1 for every `n`, negative `n` included |
| `Fibonacci.FibNumIsFib` | test.c:154-159 | fibNum(n) equals the textbook Fibonacci number F(n) for every `n >= 1`; every `n <= 0` gives F(1) = 1 |
| `Fibonacci.FibNumMonotone` | test.c:154-159 | fibNum never decreases: `m <= n` implies fibNum(m) <= fibNum(n) |
| `Fibonacci.FibNumStrictlyIncreasing` | test.c:158 | from `n = 2` on, each value is strictly smaller than the next |
| `Fibonacci.FibNumTen` | test.c:154-159 | fibNum(10) is 55 |
| `Pinball.Walk` | test.c:298-312 | with `x >= 1`, a ball's bucket index `(int)pos - 1` equals its number of right steps, so it lies in `[0, x-1]`; with `x <= 0` the index is negative, which is out of the array |
| `Pinball.InitBuckets` | test.c:284-289 | a fresh array of `x` buckets that all hold 0 |
| `Pinball.DropBall` | test.c:298-312 | one drop adds exactly 1 to the bucket the walk lands in and leaves every other bucket unchanged |
| `Pinball.MaxBucket` | test.c:317-325 | returns an index in `[0, x-1]` whose count is at least every count, and it is the first such index, because the update uses strict `>` |
| `Pinball.StarCount` | test.c:332 | the bar length is the truncated `count * 50 / top`, i.e. the largest `n` with `n * top <= count * 50`; it lies in `[0, 50]`; it is exactly 50 if and only if the bucket is the fullest; when every bucket is empty it is 0 |
| `Pinball.StarCountMonotone` | test.c:332 | a fuller bucket never gets a shorter bar |
| `Pinball.Bars` | test.c:327-340 | one bar length per bucket, in bucket order, each scaled against the fullest bucket |
| `Pinball.TallyHits` | test.c:294-315 | after all drops, each bucket holds exactly the number of balls whose walk lands there, so no count is negative |
| `Pinball.TallySum` | test.c:294-315 | after all drops, the counts add up to exactly the number of balls dropped |
| `Pinball.FullestNotEmpty` | test.c:317-332 | when at least one ball was dropped, the fullest bucket is not empty, so the scaling divides by a positive count |
| `Pinball.Simulate` | test.c:270-343 | the whole simulation with `x >= 1` and `y` balls: there are `x` counts; each count is the number of balls landing in that bucket; the counts sum to `y` (0 when `y <= 0`); `max` is the first fullest bucket; each bar is `StarCount` of its bucket's count against the fullest count; every bar lies in `[0, 50]`; a bar is 50 exactly when its bucket is a non-empty fullest one; the fullest bucket's bar is 50 whenever `y > 0` |

## Left out

- `main`'s argument check, `atoi` parsing, the echo of the parameters, and the `fork`/`wait` fan-out and join (test.c:29-118). These are command-line plumbing and operating-system process concurrency, not sequential logic.
- `buffon` (test.c:169-203) and `ellipseArea` (test.c:215-260). Both are floating-point Monte-Carlo estimates built on `rand()`, `sin` and `acos`, and they promise no exact property.
- `srand(time(NULL))` and `rand()`. The clock and the generator are replaced by the caller-supplied draws in `walks`.
- All text output: the `printf`/`sprintf`/`write` lines, the `strcat` loop that appends the stars, and the 51- and 101-byte buffers. The model returns the star counts rather than the text lines.
- The percentage column `buckets[i] / (double)y * 100` (test.c:329). It is floating point, and it is 0/0 when `y == 0`.
- `Fibonacci.FibNum`: C's `long int` is modelled as an unbounded `int`. The source overflows a 64-bit `long int` from `n = 93` on, and the model does not capture that overflow.
- `Pinball.StarCount`: uses exact integer arithmetic, where the source computes `(buckets[i] / (double)buckets[max]) * 50` in double precision and then truncates. Double rounding can give one star fewer when `50 * count / top` is a whole number. For example, with 29 balls in a bucket and 50 in the fullest, 29/50.0 is stored just below 0.58, the product with 50 rounds to just below 29, and the cast gives 28.
- `Pinball.StarCount`: when every bucket is empty (`y <= 0`), the source divides 0 by 0.0, and converting the resulting NaN to `int` is undefined in C. The model gives a bar of 0 stars, the zero-filled report a reader expects.
- `Pinball.Simulate`, `Pinball.InitBuckets`, `Pinball.DropBall`: these require `x >= 1`. With `x <= 0` the source declares a variable-length array of non-positive size and, when `y > 0`, writes to index -1 or lower, which is undefined behaviour in C. `Pinball.Walk` states that negative index for `x <= 0`.
