# A Dafny model of the game's domain layer

This project models the in-memory domain layer of a text-based Minecraft-like game written in Python. It covers seven parts:

- **The NPC ("Fantasma").** It either mines a material or builds a totem or a bridge. Each NPC gets exactly one action. Building pays a fixed price out of a resource dictionary that the caller owns.
- **The chunk.** This covers the neighbour ids on a 1000-chunk numbering of width 32, the parity day/night test, map membership, and identity by primary key.
- **The player.** The `Player` character and the active-session `PlayerSession`: health clamped to the maximum, damage floored at 0, healing capped at the maximum, experience, and the level-up rule.
- **The list-backed NPC repository.** It supports find, replace-on-save, delete and two filters.
- **The map, in both versions.** Maps are keyed by name and turn ("Dia"/"Noite"). The queries are the case-insensitive biome filter, the biome distribution, lookup by chunk number and display information. The refactored map fails every chunk query until a chunk repository has been injected.
- **The game service.** It provides map information, moving a character, listing the characters in a biome, statistics and character creation. It holds its three repositories as the rows they contain.
- **The interface service.** It provides the distance-only adjacency filter, the move that updates the caller's player object, the desert-chunk pick, the location fallback, character creation and player statistics.

Files, one module each:

- `common.dfy`: `Option`/`Result`, Python truthiness, decimal rendering of integers, `repr` of a string with its read-back, ASCII/Latin-1 lower-casing, and the string operators `in` and `endswith`.
- `seqs.dfy`: filtering by a predicate and its properties, plus a first-index search.
- `counting.dfy`: the count dictionary that the distribution loops build, its total, and the loop that builds it.
- `chunk.dfy`: `app/src/models/chunk.py`.
- `fantasma.dfy`: `app/src/models/fantasma.py`.
- `fantasma_repository.dfy`: `FantasmaRepositoryImpl` of `app/src/repositories/fatasma_repository.py`.
- `player.dfy`: `Player` of `app/src/models/player.py`.
- `player_session.dfy`: `PlayerSession`. It appears twice with identical fields and vitals rules, in `app/src/utils/player_manager.py` and in `app/src/models/player.py`, and is modelled once. `can_move` and `get_location_display` exist only in the second copy.
- `mapa.dfy`: `app/src/models/mapa.py`, with the chunk rows as a parameter and the `memoize` cache as a dictionary value. It also holds the turn type and chunk-row shape that the other map code shares.
- `mapa_refactored.dfy`: `app/src/models/mapa_refactored.py`, with the injected repository as a field.
- `game_service.dfy`: `GameService` of `app/src/services/game_service.py`.
- `interface_service.dfy`: `InterfaceService` of `app/src/services/interface_service.py`.

The form follows the source:
- **Classes.** Objects whose fields change become classes with `modifies` frames: the NPC, the resource dictionary, the repository, `Player`, `PlayerSession`, the refactored map and the two services.
- **Loops.** Loops become methods with invariants, each proved against a specification function: the cost check, the cost deduction, the distribution loops, the chunk and id searches, the nested loop of `get_players_in_bioma`, the adjacency filter and the desert search.
- **Values.** Everything pure is functions and lemmas.

Randomness in `minerar` is a nondeterministic choice in the inclusive range. Database access is replaced by the rows the database would hold.

Where a name the code uses does not exist, the model follows the intended reading, not the failure the code would produce:
- `interface_service.py` reads `player.id_player`, but `Player` declares `id_jogador`. As written, every `move_player_to_chunk` of the interface raises an uncaught AttributeError. The model reads `id_jogador`.
- `interface_service.py` imports `GameServiceImpl`, but `game_service.py` defines only `GameService`. As written, importing the interface module fails. The model uses `GameService`.
- `get_desert_chunk` reads `m.id_mapa` of the maps `find_by_turno` returns, but those are `Mapa(nome, turno)` objects with no such field. The model reads the map table's id instead; see "## Left out".
- The chunk repository builds `Chunk(numero_chunk=…, id_bioma=…, id_mapa_nome=…, id_mapa_turno=…)`, keywords that the `chunk.py` dataclass does not declare. The model gives each reader the shape it reads, as listed below.

Where the code does not follow its own documentation or tests, the model follows the code:
- Tests expect "Nome de jogador já existe" for a duplicate name. The code returns "Já existe um jogador com o nome '…'", and the model returns that.
- Two chunk shapes are in use:
  - `chunk.py` declares `id_chunk`, `id_bioma`, `id_mapa`, `x`, `y`; the adjacency filter and the desert search read that shape.
  - The map code and the game service read `numero_chunk`, `id_bioma` (a name), `id_mapa_nome`, `id_mapa_turno`.
  - Each operation gets the shape it reads: `ChunkModel.Chunk` and `MapaModel.MapChunk`.
- The location strings differ between the two layers. The game service saves "{map} - Chunk {n}". The interface service writes "Mapa {map} - Chunk {n}" on its local object. `InterfaceServiceModel.InterfaceService.MovePlayerToChunk` states the relation.
- `chunk.py` compares `belongs_to_map`'s name and turn arguments with `id_mapa` and `x`. It does so although its docstring speaks of the map name and turn. The model compares the same fields.

## Model

| member | source | states |
|---|---|---|
| ChunkModel.DayIffEven | app/src/models/chunk.py:53-59 | a chunk is in daytime exactly when x is even, and in night-time exactly when it is not |
| ChunkModel.AdjacentChunkIds | app/src/models/chunk.py:61-86 | k is listed exactly when it is id-1 with id>1, id+1 with id<1000, id-size with id>size, or id+size with id<=1000-size; at most four entries |
| ChunkModel.GetAdjacentChunkIds | app/src/models/chunk.py:72-86 | the conditional appends build exactly that list, in the order left, right, up, down |
| ChunkModel.AdjacentExcludesSelfAndStaysInRange | app/src/models/chunk.py:74-84 | for ids in 1..1000 the list never holds the id itself and holds only ids in 1..1000 |
| ChunkModel.AdjacentSymmetric | app/src/models/chunk.py:74-84 | for ids in 1..1000, b is a neighbour of a exactly when a is a neighbour of b |
| ChunkModel.Chunk500Neighbours | app/src/models/chunk.py:72-86 | chunk 500 on width 32 has the neighbours 499, 501, 468, 532 in that order |
| ChunkModel.AdjacencyWrapsAcrossRows | app/src/models/chunk.py:75-78 | 32 and 33 list each other, though they lie in different rows and are not grid neighbours |
| ChunkModel.GridAdjacentChunkIds | app/src/models/chunk.py:72-86 | the row-aware neighbour list holds at most four ids |
| ChunkModel.GridAdjacentIsGrid | app/src/models/chunk.py:72-86 | the row-aware list holds exactly the grid neighbours in 1..1000 |
| ChunkModel.GridAdjacentSymmetric | app/src/models/chunk.py:72-86 | the row-aware neighbour relation is symmetric |
| ChunkModel.BelongsIffMapKey | app/src/models/chunk.py:88-117 | belongs_to_map(a, b) holds exactly when get_map_key() is (a, b) |
| ChunkModel.ChunkIdentityIsId | app/src/models/chunk.py:131-139 | equality holds exactly when the hash keys agree, and does not depend on any field but id_chunk |
| FantasmaModel.CostTablesWellFormed | app/src/models/fantasma.py:39-42 | both cost tables name each resource once and charge a positive amount on every line |
| FantasmaModel.Recursos.Pay | app/src/models/fantasma.py:54-55 | the deduction loop leaves the dictionary equal to Deduct of the old dictionary over the cost lines |
| FantasmaModel.FirstShortfall | app/src/models/fantasma.py:47-49 | no shortfall exactly when every line is covered, a missing key counting as 0; a shortfall names a positive missing amount |
| FantasmaModel.FirstShortfallAt | app/src/models/fantasma.py:47-49 | when line i is the first uncovered one, the shortfall is its resource and its cost minus what is held |
| FantasmaModel.CostOfDistinct | app/src/models/fantasma.py:39-42 | with distinct resources, a resource's total charge is its line's amount, or 0 when it has no line |
| FantasmaModel.Deduct | app/src/models/fantasma.py:54-55 | deducting keeps the dictionary's keys |
| FantasmaModel.DeductSpec | app/src/models/fantasma.py:54-55 | each key loses exactly its total charge, and keys not charged are unchanged |
| FantasmaModel.TotemDeductionExample | app/src/models/fantasma.py:39-55 | {pedra 15, carvão 5, redstone 2} pays for a totem and becomes {5, 2, 1} |
| FantasmaModel.FindShortfall | app/src/models/fantasma.py:47-49 | the check loop returns the first shortfall in table order |
| FantasmaModel.CoveredMeansPresent | app/src/models/fantasma.py:47-55 | when every positive cost is covered, every charged key is present, so the deduction never misses a key |
| FantasmaModel.ShortfallMessageExample | app/src/models/fantasma.py:47-49 | with pedra 5 the totem falls short by "Faltam 5 de pedra", pedra being the first uncovered line |
| FantasmaModel.Fantasma.constructor | app/src/models/fantasma.py:4-13 | a new NPC keeps id, chunk and tipo, and is active, has not acted and has built nothing |
| FantasmaModel.NewFantasma | app/src/models/fantasma.py:4-13 | construction fails exactly for a tipo other than "minerador" and "construtor", with the code's message |
| FantasmaModel.Fantasma.Minerar | app/src/models/fantasma.py:15-33 | refused with no change unless an unspent miner; otherwise the action is spent first, an unknown material fails, and a known one yields one entry within its inclusive range |
| FantasmaModel.Fantasma.Construir | app/src/models/fantasma.py:35-59 | refused, invalid and shortfall results in the code's order, each changing nothing; on success the action is spent, the kind recorded, the costs deducted, and the bridge text given only for "ponte" with a truthy destination |
| FantasmaModel.Fantasma.ToDict | app/src/models/fantasma.py:61-69 | exactly the six keys, and decoding the dictionary gives back the NPC's state |
| FantasmaRepositoryModel.IndexOfId | app/src/repositories/fatasma_repository.py:41-42 | the position of the first entry with the id, or None when no entry has it |
| FantasmaRepositoryModel.FirstWithId | app/src/repositories/fatasma_repository.py:41-42 | a stored entry with the id, or None exactly when no entry has it |
| FantasmaRepositoryModel.RemoveAt | app/src/repositories/fatasma_repository.py:44-56 | removing position i keeps every other entry, in order |
| FantasmaRepositoryModel.AppendedIsFound | app/src/repositories/fatasma_repository.py:44-49 | an NPC appended under a new id is found at the end |
| FantasmaRepositoryModel.RemoveAtUnique | app/src/repositories/fatasma_repository.py:44-56 | removing from a list with unique ids keeps ids unique and leaves no entry with the removed id |
| FantasmaRepositoryModel.SaveSpec | app/src/repositories/fatasma_repository.py:44-49 | after save, ids stay unique, the id finds the saved NPC, other ids find what they found before, and the size grows only for a new id |
| FantasmaRepositoryModel.NotLastSame | app/src/repositories/fatasma_repository.py:44-49 | appending an NPC does not change what other ids find |
| FantasmaRepositoryModel.RemoveOtherId | app/src/repositories/fatasma_repository.py:51-56 | removing an entry does not change what other ids find |
| FantasmaRepositoryModel.DeleteSpec | app/src/repositories/fatasma_repository.py:51-56 | after delete, ids stay unique, the id finds nothing, other ids find what they found before, and the size shrinks only when the id was stored |
| FantasmaRepositoryModel.SaveThenDelete | app/src/repositories/fatasma_repository.py:44-56 | saving then deleting the same id leaves it unfound, with unique ids and a size one less than with the save |
| FantasmaRepositoryModel.FantasmaRepositoryImpl.constructor | app/src/repositories/fatasma_repository.py:35-36 | a new repository is empty |
| FantasmaRepositoryModel.FantasmaRepositoryImpl.FindAll | app/src/repositories/fatasma_repository.py:38-39 | find_all gives the stored entries themselves, in order |
| FantasmaRepositoryModel.FantasmaRepositoryImpl.FindById | app/src/repositories/fatasma_repository.py:41-42 | the search returns the first entry with the id, or None |
| FantasmaRepositoryModel.FantasmaRepositoryImpl.Save | app/src/repositories/fatasma_repository.py:44-49 | removes the entry with the NPC's id, appends the NPC, returns it; unique ids are kept and the id then finds it |
| FantasmaRepositoryModel.FantasmaRepositoryImpl.Delete | app/src/repositories/fatasma_repository.py:51-56 | true exactly when the id was stored, and then that entry is removed; unique ids are kept and the id then finds nothing |
| FantasmaRepositoryModel.FantasmaRepositoryImpl.FindByTipo | app/src/repositories/fatasma_repository.py:58-59 | exactly the stored NPCs of that kind |
| FantasmaRepositoryModel.FantasmaRepositoryImpl.FindByChunk | app/src/repositories/fatasma_repository.py:61-62 | exactly the stored NPCs on that chunk |
| PlayerModel.Damaged | app/src/models/player.py:54 | health after damage is never negative and never below health minus damage, and is one of 0 and health minus damage |
| PlayerModel.Healed | app/src/models/player.py:64 | health after healing is never above the maximum or above health plus amount, and is one of the two |
| PlayerModel.VitalsMonotone | app/src/models/player.py:44-64 | non-negative damage never raises health, and non-negative healing never lowers health that is within the maximum |
| PlayerModel.DamageThenHeal | app/src/models/player.py:44-64 | damage keeps valid health within 0..max, a full heal restores the maximum, and damage equal to health kills |
| PlayerModel.PlayerIdentityIsId | app/src/models/player.py:135-143 | equality holds exactly when the hash keys agree, and does not depend on any field but id_jogador |
| PlayerModel.Player.constructor | app/src/models/player.py:35-38 | construction keeps every field except health, which is clamped to the maximum, so health <= maximum |
| PlayerModel.Player.IsAlive | app/src/models/player.py:40-42 | the player lives exactly while health is positive |
| PlayerModel.Player.TakeDamage | app/src/models/player.py:44-55 | health becomes max(0, health - damage), the result is whether the player lives, and non-negative damage never raises health |
| PlayerModel.Player.Heal | app/src/models/player.py:57-64 | health becomes min(maximum, health + amount), keeping health <= maximum |
| PlayerModel.Player.GainExperience | app/src/models/player.py:66-73 | experience grows by the amount and nothing else changes |
| PlayerModel.Player.LevelUp | app/src/models/player.py:75-89 | true exactly when experience reached level*100, and the new state is LeveledUp of the old |
| PlayerModel.LeveledUp | app/src/models/player.py:83-89 | with enough experience: level +1, maximum +10, strength +2, health refilled; otherwise no change; experience is never consumed |
| PlayerModel.LevelUpKeepsExperience | app/src/models/player.py:83-89 | a level-1 player with 250 XP levels up twice and then stops |
| PlayerSessionModel.LocationTextIsNotUnknown | app/src/models/player.py:224-233 | a located display is never "Desconhecida" and starts with the biome |
| PlayerSessionModel.PlayerSession.constructor | app/src/utils/player_manager.py:11-25 | a session holds exactly the ten given attributes |
| PlayerSessionModel.PlayerSession.ToDict | app/src/utils/player_manager.py:27-40 | exactly the ten keys, and decoding the dictionary gives back every attribute |
| PlayerSessionModel.PlayerSession.IsAlive | app/src/utils/player_manager.py:42-44 | the session lives exactly while health is positive |
| PlayerSessionModel.PlayerSession.CanMove | app/src/models/player.py:268-275 | a session can move exactly when it lives and stands on a chunk |
| PlayerSessionModel.PlayerSession.TakeDamage | app/src/utils/player_manager.py:46-49 | health becomes max(0, health - damage), the result is is_alive() afterwards, and a session that dies cannot move |
| PlayerSessionModel.PlayerSession.Heal | app/src/utils/player_manager.py:51-53 | health becomes min(vida_max, health + amount), so it ends at most vida_max |
| PlayerSessionModel.PlayerSession.GainXp | app/src/utils/player_manager.py:55-57 | xp grows by the amount and no other attribute changes |
| PlayerSessionModel.PlayerSession.GetLocationDisplay | app/src/models/player.py:224-233 | "Desconhecida" exactly when the biome is not a non-empty string; otherwise the text starts with the biome |
| MapaModel.ParseTurno | app/src/models/mapa.py:29-32 | only "Dia" and "Noite" name a turn |
| MapaModel.TurnoRoundTrip | app/src/models/mapa.py:29-32 | parsing a turn's value gives the turn, and a parsed string is the value of its turn |
| MapaModel.ConvertTurno | app/src/models/mapa.py:48-51 | an enum is kept; a string converts exactly when it is "Dia" or "Noite", to the turn with that value, and otherwise fails with the enum's message `%r is not a valid TurnoType`, the string quoted as repr quotes it |
| MapaModel.InvalidTurnoNamesArgument | app/src/models/mapa.py:51 | two strings refused with the same message are the same string |
| Common.ReprExamples | app/src/models/mapa.py:51 | repr puts "d'a" between double quotes, doubles the backslash of a\b, and puts "dia" between single quotes |
| Common.PlainRepr | app/src/models/mapa.py:51 | a string without single quotes, backslashes or non-printable characters is quoted with single quotes and otherwise kept as it is |
| Common.UnescapeReprBody | app/src/models/mapa.py:51 | reading back what repr writes between the quotes gives the original string |
| Common.ReprInjective | app/src/models/mapa.py:51 | distinct strings have distinct reprs |
| MapaModel.NewMapa | app/src/models/mapa.py:48-51 | a map is built exactly when the turn converts, with that name and turn |
| MapaModel.DayNightExclusive | app/src/models/mapa.py:83-89 | every map is a day map exactly when it is not a night map |
| MapaModel.MapaIdentity | app/src/models/mapa.py:192-200 | equality holds exactly when the hash keys (name, turn) agree |
| MapaModel.ChunksOfMap | app/src/models/mapa.py:157 | exactly the rows whose map name and turn value are the map's |
| MapaModel.SetChunksFilter | app/src/models/mapa.py:157 | the comprehension of set_chunks alone: the kept rows are in the given order, each as often as given when it belongs and never otherwise |
| MapaModel.MemoGetChunks | app/src/models/mapa.py:14-26 | the memoized get_chunks returns a stored result without loading, otherwise stores and returns the loaded rows, and leaves every other key alone |
| MapaModel.CacheKeySeparatesTurns | app/src/models/mapa.py:21 | the day and night maps of one name are filed under different cache keys |
| MapaModel.MemoizeAttribute | app/src/models/mapa.py:14-26 | reading an attribute of the `memoize` function raises AttributeError exactly for a name outside the attributes of a CPython 3.12 function object, `cache` among them |
| MapaModel.SetChunksAlwaysRaises | app/src/models/mapa.py:156-161 | set_chunks as written raises "'function' object has no attribute 'cache'" on every call, so it never stores the rows |
| MapaModel.SetChunks | app/src/models/mapa.py:148-163 | the intended set_chunks stores this map's rows under its get_chunks key |
| MapaModel.SetChunksThenGetChunks | app/src/models/mapa.py:148-163 | after the intended set_chunks, get_chunks returns exactly this map's given rows without loading, and other keys keep their results |
| MapaModel.ChunksByBioma | app/src/models/mapa.py:53-64 | exactly the rows whose biome equals the argument ignoring case |
| MapaModel.ChunksByBiomaOrderAndCase | app/src/models/mapa.py:63-64 | the filter keeps row order, and arguments equal up to case select the same rows |
| MapaModel.Biomas | app/src/models/mapa.py:78-80 | each row's biome, in row order |
| MapaModel.BiomaDistribution | app/src/models/mapa.py:66-81 | {} exactly for no rows; otherwise every row's biome is a key with a positive count, and the counts add up to the number of rows |
| MapaModel.ChunkNumbered | app/src/models/mapa.py:165-180 | None exactly when no row carries the number; otherwise a row carrying it |
| MapaModel.ChunkNumberedIsFirst | app/src/models/mapa.py:177-179 | of several rows with the number, the earliest is returned |
| MapaModel.FindChunkByNumber | app/src/models/mapa.py:165-180 | the search loop returns the first row with the number, or None |
| MapaModel.GetDisplayInfo | app/src/models/mapa.py:91-109 | tipo is "Dia" exactly for day maps; total_chunks and distribuicao are present exactly when there are chunks, and then the distribution adds up to the total |
| MapaRefactoredModel.Mapa.constructor | app/src/models/mapa_refactored.py:29-36 | a new map has its name and turn and no repository |
| MapaRefactoredModel.NewMapaRefactored | app/src/models/mapa_refactored.py:33-36 | a map is built exactly when the turn converts, and then has no repository |
| MapaRefactoredModel.Mapa.IsDayMap | app/src/models/mapa_refactored.py:78-80 | the map's turn is the day turn |
| MapaRefactoredModel.Mapa.IsNightMap | app/src/models/mapa_refactored.py:82-84 | the map's turn is the night turn |
| MapaRefactoredModel.Mapa.Equals | app/src/models/mapa_refactored.py:151-155 | same name and same turn |
| MapaRefactoredModel.RefactoredMapaIdentity | app/src/models/mapa_refactored.py:78-84 | equality holds exactly when the (name, turn) keys and so the hashed tuples agree, whatever repository is set, and is symmetric; a map is a day map exactly when it is not a night map |
| MapaRefactoredModel.Mapa.SetChunkRepository | app/src/models/mapa_refactored.py:38-40 | the repository becomes the given one |
| MapaRefactoredModel.Mapa.GetChunks | app/src/models/mapa_refactored.py:109-116 | the error "Chunk repository não foi configurado" exactly without a repository; otherwise exactly this map's rows |
| MapaRefactoredModel.Mapa.GetChunksByBioma | app/src/models/mapa_refactored.py:42-56 | the error exactly without a repository; otherwise exactly this map's rows whose biome matches ignoring case |
| MapaRefactoredModel.Mapa.GetBiomaDistribution | app/src/models/mapa_refactored.py:58-76 | the error exactly without a repository; otherwise {} exactly for no rows, and counts adding up to the row count |
| MapaRefactoredModel.Mapa.GetDisplayInfo | app/src/models/mapa_refactored.py:86-107 | the error exactly without a repository; otherwise tipo "Dia" for day maps and "Noite" for night maps, and the chunk entries exactly when there are rows, with distribuicao the biome distribution of those rows |
| MapaRefactoredModel.Mapa.GetChunkById | app/src/models/mapa_refactored.py:118-136 | the error exactly without a repository; otherwise the first of this map's rows with the number, or None |
| Counting.Tally | app/src/models/mapa.py:77-81 | the counting loop builds the count dictionary of the keys |
| Counting.HistogramTotal | app/src/services/game_service.py:190-193 | the counts of a count dictionary add up to the number of keys counted |
| GameServiceModel.FindPlayerById | app/src/services/game_service.py:105-107 | a stored row with the id, or None exactly when no row has it |
| GameServiceModel.GameService.constructor | app/src/services/game_service.py:24-28 | a service starts with the given maps and chunks, no characters, and its invariant: distinct handed-out ids and health at most the maximum |
| GameServiceModel.GameService.GetMapInfo | app/src/services/game_service.py:30-61 | "Mapa não encontrado" exactly when the map is absent; otherwise its chunk count, a biome distribution adding up to it, and the first ten chunk numbers in order |
| GameServiceModel.GameService.MovePlayerToChunk | app/src/services/game_service.py:93-134 | "Jogador não encontrado", then "Chunk não encontrado", each saving nothing; otherwise only the character's location changes, to "{map} - Chunk {n}", and ids stay unique |
| GameServiceModel.ListIfInChunks | app/src/services/game_service.py:155-164 | the inner loop appends the character's entry exactly when some chunk's tag occurs in its location |
| GameServiceModel.ListingStep | app/src/services/game_service.py:154-164 | examining one more character appends its entry exactly when it matches |
| GameServiceModel.GameService.GetPlayersInBioma | app/src/services/game_service.py:136-166 | the entries of exactly the characters whose location contains "Chunk N" for a chunk N of the biome, each once, in stored order |
| GameServiceModel.SubstringMatchesLongerNumber | app/src/services/game_service.py:156 | "Mapa_Principal - Chunk 12" contains "Chunk 1", so a character in chunk 12 is listed for the biome of chunk 1 |
| GameServiceModel.DigitRunsAgree | app/src/services/game_service.py:115 | of two space-ended prefixes followed by digits, one ending with the other forces equal digits |
| GameServiceModel.ExactTagMatch | app/src/services/game_service.py:115 | a saved location ends with "Chunk n" exactly when it names chunk n |
| GameServiceModel.ExactListingIsPrecise | app/src/services/game_service.py:153-164 | with the suffix test, a character moved to chunk m is listed for a biome exactly when m is one of its chunks |
| GameServiceModel.GameService.GetMapStatistics | app/src/services/game_service.py:168-203 | table sizes, living characters as active and the rest as dead (adding up to the total), per-turn chunk counts adding up to the chunk total, and each map's name and turn value |
| GameServiceModel.GameService.CreateNewPlayer | app/src/services/game_service.py:205-249 | a taken name gives the error and saves nothing; otherwise one row with 100/100, 10, level 1, 0 XP under the next id is appended, ids stay unique and the id then finds it |
| InterfaceServiceModel.Pairs | app/src/services/interface_service.py:94-96 | the (id_chunk, id_bioma) pair of each row, in order |
| InterfaceServiceModel.PairsStep | app/src/services/interface_service.py:92-96 | examining one more row appends its pair exactly when it is 1 or 32 away |
| InterfaceServiceModel.GetAdjacentChunks | app/src/services/interface_service.py:84-101 | [] when fetching failed; otherwise the pairs of exactly the rows 1 or 32 away, in fetched order |
| InterfaceServiceModel.AdjacentListing | app/src/services/interface_service.py:88-98 | every listed pair is a fetched row 1 or 32 away, never the chunk itself, and every such row is listed |
| InterfaceServiceModel.DistanceAgreesWithChunkNeighbours | app/src/services/interface_service.py:95 | the distance test is symmetric and, on ids 1..1000, agrees with the chunk model's neighbour list |
| InterfaceServiceModel.AnyMapOfTurno | app/src/services/interface_service.py:120-123 | the any() over the maps of a turn holds exactly when a map of that turn has the id |
| InterfaceServiceModel.DesertChunk | app/src/services/interface_service.py:112-128 | None for a turn other than "Dia"/"Noite"; otherwise None exactly when no desert chunk lies on a map of that turn, and any result is such a chunk's id |
| InterfaceServiceModel.GetDesertChunk | app/src/services/interface_service.py:112-128 | the search loop returns the first such chunk's id |
| InterfaceServiceModel.InterfaceService.constructor | app/src/services/interface_service.py:29-33 | the service holds the given game service and tables |
| InterfaceServiceModel.InterfaceService.CreatePlayer | app/src/services/interface_service.py:60-74 | None and nothing saved for a taken name; otherwise the saved default row, whatever health and strength were asked for |
| InterfaceServiceModel.InterfaceService.MovePlayerToChunk | app/src/services/interface_service.py:103-110 | the same object back exactly when the player and chunk are found, with location "Mapa {map} - Chunk {n}" (the saved location with "Mapa " in front), and the stored rows changed only in that character's location; otherwise None and nothing changes |
| InterfaceServiceModel.InterfaceService.EnsurePlayerLocation | app/src/services/interface_service.py:130-141 | true with no change for a location that is not empty and not "0"; otherwise true exactly when a non-zero day desert chunk exists and the move to it succeeds, and then the object and the stored row name that chunk and no other row changes |
| InterfaceServiceModel.InterfaceService.GetPlayerStatistics | app/src/services/interface_service.py:147-155 | total and active counts of the game statistics, and the constants 1 and 50 |

## Left out

- The database is not modelled. This covers the PostgreSQL repositories, the connection helpers, the SQL behind `get_chunks` in `mapa.py`, and the database functions in `player_manager.py`. Only the rows a repository would hold are kept, as sequences.
- MapaModel.MemoizeAttribute: the attribute set is that of a CPython 3.12 function; earlier versions lack `__builtins__`, `__getstate__` or `__type_params__`. No version has `cache`.
- GameServiceModel.GameService: the characters are held as the `Player` objects the repository builds, after `__post_init__` has clamped health to the maximum; `Valid()` states that clamp. A raw table row whose health exceeds its maximum, which the source clamps on every read and saves back clamped, is not modelled.
- InterfaceServiceModel.DesertChunk: the maps are `MapRef` rows carrying the map table's id and turn. The code gets `Mapa(nome, turno)` objects back from `find_by_turno`, which have no `id_mapa`. As written, the AttributeError in the `any()` is caught, and the search returns None whenever a desert chunk and a map of the turn both exist. The model does not reproduce that failure.
- Query order: `ORDER BY` clauses are modelled as the stored order of the rows. `find_by_name` and `find_all` of the player repository are read as exact lookups over the stored rows.
- GameServiceModel.GameService.MovePlayerToChunk: the chunk repository's `find_by_id` selects on `numero_chunk` alone with `fetchone()` and no `ORDER BY`. Chunk numbers repeat across the day and night maps, so the database may return any matching row. The model always takes the first stored row with the number, as `FindChunkByNumber` does.
- Database failures caught by `try`/`except` are not modelled, except where the result is specified:
  - a failed fetch in `get_adjacent_chunks` gives [];
  - an invalid turn string in `get_desert_chunk` gives None.
- Player-repository `save` is modelled only as used:
  - an update replaces the row with the same id;
  - an insert appends a row under the next id.
  Its exception path, which returns the player unchanged, is left out.
- The singleton mechanics of `InterfaceService` and the pass-through getters that only forward to a repository are left out. They carry no domain rule.
- The `isinstance(player_data, Player)` branch of `create_player` is left out. It exists only for test doubles; the game service always returns a dictionary.
- Floating point is left out: health percentages, health bars and `vida_percentual`.
- Console output and display code are left out, including the `print` calls inside the modelled operations.
- The `memoize` cache is modelled as the dictionary value `MemoGetChunks` reads and returns. The map queries take the rows `get_chunks` returns as a parameter, so the cache in front of them, and its key by `__repr__`, appear only in `set_chunks`.
- InterfaceServiceModel.GetAdjacentChunks: the rows of `find_by_mapa('Mapa_Principal', turno)`, with `turno` defaulting to 'Dia', are the `fetched` parameter. The model does not restrict them to that map and turn or take the turn argument. The rows the adjacency filter reads have the `chunk.py` shape, which has no map-name or turn field to restrict on.
- Common.PyRepr: escapes the backslash, the chosen quote, tab, newline, carriage return and the non-printable characters of U+0000..U+00FF. Other non-printable characters, which Python writes as `\u`/`\U` escapes, are kept as they are.
- Randomness: `random.randint` is a choice of any value in the inclusive range. No distribution is modelled.
- The pure records `ponte`, `totem`, `item`, `inventory`, `aldeao`, `bioma` and `mundo` have no behaviour and are not modelled. The desert's biome id 1 is a constant.
- Python truthiness is modelled only where the source depends on it:
  - a non-empty string destination or biome;
  - an id of 0 counting as no desert chunk;
  - `if not self._chunk_repository`, modelled as no repository having been set.
- Lower-casing covers ASCII and Latin-1 letters only. Python's full Unicode case mapping is not modelled.
- Aliasing: `find_all` of the NPC repository returns the backing list itself. The model returns its value, so a caller's later in-place change of that list is not modelled.
- The two `PlayerSession` copies share one model:
  - the copy in `player_manager.py` lacks `can_move` and `get_location_display`;
  - its `take_damage` contract does not depend on them.

## Findings

| source | as written | input that shows it | evidently intended | confidence | as-written member | corrected member |
|---|---|---|---|---|---|---|
| app/src/models/chunk.py:74-78 | horizontal neighbours are limited only by 1 and 1000, so the last chunk of a row neighbours the first of the next | chunk 32 (row 0, column 31) lists 33 (row 1, column 0), and 33 lists 32 | neighbours on the width-32 grid of the docstring: no left neighbour in the first column, no right one in the last | not executed; medium | ChunkModel.AdjacencyWrapsAcrossRows | ChunkModel.GridAdjacentIsGrid |
| app/src/models/mapa.py:161 | `memoize.cache[cache_key] = …` reads an attribute that `memoize` never has: its dictionary is a local captured by each wrapper | any call, such as `set_chunks([])` on `Mapa('M', 'Dia')`, raises AttributeError "'function' object has no attribute 'cache'" after filtering, and nothing is stored | the filtered rows replace the cached result of `get_chunks` for this map | not executed; high | MapaModel.SetChunksAlwaysRaises | MapaModel.SetChunksThenGetChunks |
| app/src/services/game_service.py:156 | a character is in a chunk when "Chunk N" occurs anywhere in its location | a character at "Mapa_Principal - Chunk 12" is listed for the biome of chunk 1, because "Chunk 1" occurs in it | a location names chunk N exactly when it ends with "Chunk N", the form move_player_to_chunk saves | not executed; high | GameServiceModel.SubstringMatchesLongerNumber | GameServiceModel.ExactListingIsPrecise |
